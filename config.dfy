/** The model registry and the discussion settings (backend/config.py). */
module Config {
  import opened Wrappers

  /** One configured council member; `role` is "chairman" or "participant". */
  datatype Participant = Participant(id: string, name: string, role: string, color: string)

  /** COUNCIL_MODELS, in configuration order. */
  const CouncilModels: seq<Participant> := [
    Participant("openai/gpt-5.1", "GPT-5.1", "chairman", "#10a37f"),
    Participant("google/gemini-3-pro-preview", "Gemini 3 Pro", "participant", "#4285f4")
  ]

  /** MAX_DISCUSSION_ROUNDS. */
  const MaxDiscussionRounds: nat := 3

  predicate IsChairman(p: Participant) {
    p.role == "chairman"
  }

  /** Position of the first registry entry whose role is "chairman". */
  function ChairmanIndex(models: seq<Participant>): (r: Option<nat>)
    ensures r.Some? ==> r.value < |models| && IsChairman(models[r.value])
    ensures r.Some? ==> forall j :: 0 <= j < r.value ==> !IsChairman(models[j])
    ensures r.None? <==> forall j :: 0 <= j < |models| ==> !IsChairman(models[j])
  {
    if models == [] then None
    else if IsChairman(models[0]) then Some(0)
    else
      match ChairmanIndex(models[1..])
      case None => None
      case Some(k) => Some(k + 1)
  }

  /** The lookup `next(...)` fails with StopIteration when no entry qualifies. */
  datatype ConfigError = StopIteration

  /** CHAIRMAN_MODEL: the first chairman of the registry. */
  function ChairmanOf(models: seq<Participant>): (r: Result<Participant, ConfigError>)
    ensures r.Success? ==> r.value in models && IsChairman(r.value)
    ensures r.Failure? <==> forall p :: p in models ==> !IsChairman(p)
  {
    match ChairmanIndex(models)
    case None => Failure(StopIteration)
    case Some(k) => Success(models[k])
  }

  /** The names of the registry are pairwise distinct. */
  predicate DistinctNames(models: seq<Participant>) {
    forall i, j :: 0 <= i < j < |models| ==> models[i].name != models[j].name
  }

  predicate DistinctIds(models: seq<Participant>) {
    forall i, j :: 0 <= i < j < |models| ==> models[i].id != models[j].id
  }

  /** The configured registry: two entries, ids and names distinct, exactly one
      chairman, which is the first entry and is what CHAIRMAN_MODEL resolves to. */
  lemma ConfiguredRegistry()
    ensures |CouncilModels| == 2
    ensures DistinctIds(CouncilModels) && DistinctNames(CouncilModels)
    ensures forall i :: 0 <= i < |CouncilModels| ==> (IsChairman(CouncilModels[i]) <==> i == 0)
    ensures ChairmanOf(CouncilModels) == Success(CouncilModels[0])
    ensures MaxDiscussionRounds == 3
  {
  }

  /** A registry without a chairman makes the lookup fail. */
  lemma NoChairmanFails(models: seq<Participant>)
    requires forall j :: 0 <= j < |models| ==> models[j].role == "participant"
    ensures ChairmanOf(models) == Failure(StopIteration)
  {
  }
}
