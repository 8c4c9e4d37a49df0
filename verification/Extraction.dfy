/** One extraction: a prompt for each batch, all answers checked, nothing kept unless all of them pass. */
module Extraction {
  import opened Tables
  import opened Batches

  /** What the model answers for one batch: the chunk each entity and each relationship cites, by index. */
  datatype Answer = Answer(entities: seq<nat>, relationships: seq<nat>)

  datatype Draft = EntityDraft(chunk: nat) | RelationshipDraft(chunk: nat)

  datatype ExtractionError = NoChunks | BadAnswer | CitedOutside | TooMany

  predicate Cites(batch: seq<ChunkRow>, index: nat) {
    exists i :: 0 <= i < |batch| && batch[i].index == index
  }

  /** `parse_extraction` accepts the answer. */
  predicate Usable(batch: seq<ChunkRow>, a: Option<Answer>) {
    && a.Some?
    && (forall k :: k in a.value.entities ==> Cites(batch, k))
    && (forall k :: k in a.value.relationships ==> Cites(batch, k))
  }

  function Entities(cited: seq<nat>): (r: seq<Draft>)
    ensures |r| == |cited| && forall i :: 0 <= i < |cited| ==> r[i] == EntityDraft(cited[i])
  {
    seq(|cited|, i requires 0 <= i < |cited| => EntityDraft(cited[i]))
  }

  function Relationships(cited: seq<nat>): (r: seq<Draft>)
    ensures |r| == |cited| && forall i :: 0 <= i < |cited| ==> r[i] == RelationshipDraft(cited[i])
  {
    seq(|cited|, i requires 0 <= i < |cited| => RelationshipDraft(cited[i]))
  }

  function DraftsOf(a: Option<Answer>): (drafts: seq<Draft>)
    ensures a.Some? ==> |drafts| == |a.value.entities| + |a.value.relationships|
  {
    if a.None? then [] else Entities(a.value.entities) + Relationships(a.value.relationships)
  }

  /** The drafts of the first `n` answers, in order. */
  function AllDrafts(answers: nat -> Option<Answer>, n: nat): seq<Draft> {
    if n == 0 then [] else AllDrafts(answers, n - 1) + DraftsOf(answers(n - 1))
  }

  lemma {:induction false} DraftsGrow(answers: nat -> Option<Answer>, m: nat, n: nat)
    requires m <= n
    ensures |AllDrafts(answers, m)| <= |AllDrafts(answers, n)|
  {
    if m < n {
      DraftsGrow(answers, m, n - 1);
    }
  }

  /** Every answer can be used, and together they stay within the limit of the job. */
  ghost predicate Acceptable(batches: seq<seq<ChunkRow>>, answers: nat -> Option<Answer>, limit: nat) {
    AllUsable(batches, answers) && |AllDrafts(answers, |batches|)| <= limit
  }

  ghost predicate AllUsable(batches: seq<seq<ChunkRow>>, answers: nat -> Option<Answer>) {
    forall i :: 0 <= i < |batches| ==> Usable(batches[i], answers(i))
  }

  lemma TooManyForGood(batches: seq<seq<ChunkRow>>, answers: nat -> Option<Answer>, limit: nat, i: nat)
    requires i < |batches| && |AllDrafts(answers, i + 1)| > limit
    ensures !Acceptable(batches, answers, limit)
  {
    DraftsGrow(answers, i + 1, |batches|);
  }

  lemma OneBadAnswer(batches: seq<seq<ChunkRow>>, answers: nat -> Option<Answer>, limit: nat, i: nat)
    requires i < |batches| && !Usable(batches[i], answers(i))
    ensures !Acceptable(batches, answers, limit)
  {
  }

  lemma UsableSoFar(batches: seq<seq<ChunkRow>>, answers: nat -> Option<Answer>, i: nat)
    requires i < |batches| && AllUsable(batches[..i], answers) && Usable(batches[i], answers(i))
    ensures AllUsable(batches[..i + 1], answers)
  {
    assert batches[..i + 1] == batches[..i] + [batches[i]];
  }

  /** One prompt for each batch; the limit is checked after each answer. */
  method AskAll(batches: seq<seq<ChunkRow>>, limit: nat, answers: nat -> Option<Answer>)
    returns (r: Result<seq<Draft>, ExtractionError>)
    ensures r.Ok? <==> Acceptable(batches, answers, limit)
    ensures r.Ok? ==> r.value == AllDrafts(answers, |batches|)
    ensures r.Err? ==> r.error != NoChunks
  {
    var drafts: seq<Draft> := [];
    for i := 0 to |batches|
      invariant drafts == AllDrafts(answers, i) && |drafts| <= limit
      invariant AllUsable(batches[..i], answers)
    {
      var batch, answer := batches[i], answers(i);
      if !Usable(batch, answer) {
        OneBadAnswer(batches, answers, limit, i);
        return if answer.None? then Err(BadAnswer) else Err(CitedOutside);
      }
      UsableSoFar(batches, answers, i);
      var more := DraftsOf(answer);
      if |drafts| + |answer.value.entities| + |answer.value.relationships| > limit {
        TooManyForGood(batches, answers, limit, i);
        return Err(TooMany);
      }
      drafts := drafts + more;
    }
    assert batches[..|batches|] == batches;
    r := Ok(drafts);
  }

  /** `extract_proposals`: the check after each batch comes to the same as one check at the end. */
  method ExtractProposals(chunks: seq<ChunkRow>, budget: nat, limit: nat, answers: nat -> Option<Answer>)
    returns (r: Result<seq<Draft>, ExtractionError>, ghost batches: seq<seq<ChunkRow>>)
    ensures IsPacking(batches, chunks, budget) && Greedy(batches, budget)
    ensures chunks == [] <==> r == Err(NoChunks)
    ensures r.Ok? <==> chunks != [] && Acceptable(batches, answers, limit)
    ensures r.Ok? ==> r.value == AllDrafts(answers, |batches|) && |r.value| == Items(answers, |batches|) <= limit
    ensures chunks != [] && AllUsable(batches, answers) && Items(answers, |batches|) <= limit ==> r.Ok?
  {
    var todo := ExtractionBatches(chunks, budget);
    batches := todo;
    if chunks == [] { return Err(NoChunks), batches; }
    ItemsAreDrafts(answers, |todo|);
    r := AskAll(todo, limit, answers);
  }

  /** How many items the first `n` answers hold. */
  function Items(answers: nat -> Option<Answer>, n: nat): nat {
    if n == 0 then 0
    else Items(answers, n - 1) +
         (match answers(n - 1) case Some(a) => |a.entities| + |a.relationships| case None => 0)
  }

  lemma {:induction false} ItemsAreDrafts(answers: nat -> Option<Answer>, n: nat)
    ensures |AllDrafts(answers, n)| == Items(answers, n)
  {
    if n > 0 { ItemsAreDrafts(answers, n - 1); }
  }

  /** The answers are kept if and only if each is there, cites its own prompt's chunks only, and together they hold no
      more items than the limit. */
  lemma AcceptableIff(batches: seq<seq<ChunkRow>>, answers: nat -> Option<Answer>, limit: nat)
    ensures Acceptable(batches, answers, limit) <==>
              && (forall i :: 0 <= i < |batches| ==>
                    && answers(i).Some?
                    && (forall k :: k in answers(i).value.entities ==>
                          exists j :: 0 <= j < |batches[i]| && batches[i][j].index == k)
                    && (forall k :: k in answers(i).value.relationships ==>
                          exists j :: 0 <= j < |batches[i]| && batches[i][j].index == k))
              && Items(answers, |batches|) <= limit
  {
    ItemsAreDrafts(answers, |batches|);
    if Acceptable(batches, answers, limit) {
      forall i | 0 <= i < |batches| ensures Usable(batches[i], answers(i)) {}
    }
  }

  /** The items of this answer stand in the drafts from here on: its entities, then its relationships, in order. */
  predicate StandsAt(drafts: seq<Draft>, from: nat, a: Answer) {
    && from + |a.entities| + |a.relationships| <= |drafts|
    && (forall k :: 0 <= k < |a.entities| ==> drafts[from + k] == EntityDraft(a.entities[k]))
    && (forall k :: 0 <= k < |a.relationships| ==>
          drafts[from + |a.entities| + k] == RelationshipDraft(a.relationships[k]))
  }

  lemma StandsLast(before: seq<Draft>, a: Answer)
    ensures StandsAt(before + DraftsOf(Some(a)), |before|, a)
  {
    var entities, relationships := Entities(a.entities), Relationships(a.relationships);
    assert DraftsOf(Some(a)) == entities + relationships;
  }

  lemma StillStands(drafts: seq<Draft>, more: seq<Draft>, from: nat, a: Answer)
    requires StandsAt(drafts, from, a)
    ensures StandsAt(drafts + more, from, a)
  {
  }

  /** Nothing is dropped: the drafts of each answer stand together, behind those of the answers before it. */
  lemma {:induction false} EveryItemIsKept(answers: nat -> Option<Answer>, n: nat, i: nat)
    requires i < n && answers(i).Some?
    ensures StandsAt(AllDrafts(answers, n), Items(answers, i), answers(i).value)
  {
    if i < n - 1 {
      EveryItemIsKept(answers, n - 1, i);
      StillStands(AllDrafts(answers, n - 1), DraftsOf(answers(n - 1)), Items(answers, i), answers(i).value);
    } else {
      ItemsAreDrafts(answers, i);
      StandsLast(AllDrafts(answers, i), answers(i).value);
    }
  }

  lemma DraftFromBatch(batch: seq<ChunkRow>, a: Option<Answer>, draft: Draft)
    requires Usable(batch, a) && draft in DraftsOf(a)
    ensures Cites(batch, draft.chunk)
  {
    if draft in Entities(a.value.entities) {
      assert draft.chunk in a.value.entities;
    } else {
      assert draft.chunk in a.value.relationships;
    }
  }

  lemma InEither(x: seq<Draft>, y: seq<Draft>, draft: Draft)
    requires draft in x + y
    ensures draft in x || draft in y
  {
  }

  lemma {:induction false} FromSomeAnswer(answers: nat -> Option<Answer>, n: nat, draft: Draft) returns (m: nat)
    requires n > 0 && draft in AllDrafts(answers, n)
    ensures m < n && draft in DraftsOf(answers(m))
  {
    var last := DraftsOf(answers(n - 1));
    InEither(AllDrafts(answers, n - 1), last, draft);
    if draft in last {
      m := n - 1;
    } else {
      m := FromSomeAnswer(answers, n - 1, draft);
    }
  }

  /** So no draft that is kept cites anything but a chunk of the document. */
  lemma DraftsCiteTheDocument(batches: seq<seq<ChunkRow>>, answers: nat -> Option<Answer>, draft: Draft)
    requires AllUsable(batches, answers) && draft in AllDrafts(answers, |batches|)
    ensures Cites(Flatten(batches), draft.chunk)
  {
    var m := FromSomeAnswer(answers, |batches|, draft);
    DraftCited(batches, answers, m, draft);
  }

  lemma DraftCited(batches: seq<seq<ChunkRow>>, answers: nat -> Option<Answer>, n: nat, draft: Draft)
    requires AllUsable(batches, answers) && n < |batches| && draft in DraftsOf(answers(n))
    ensures Cites(Flatten(batches), draft.chunk)
  {
    DraftFromBatch(batches[n], answers(n), draft);
    CitedInDocument(batches, n, draft.chunk);
  }

  lemma CitedInDocument(batches: seq<seq<ChunkRow>>, n: nat, index: nat)
    requires n < |batches| && Cites(batches[n], index)
    ensures Cites(Flatten(batches), index)
  {
    var i :| 0 <= i < |batches[n]| && batches[n][i].index == index;
    BatchInDocument(batches, n, batches[n][i]);
  }

  lemma {:induction false} BatchInDocument(batches: seq<seq<ChunkRow>>, n: nat, row: ChunkRow)
    requires n < |batches| && row in batches[n]
    ensures row in Flatten(batches)
    decreases |batches|
  {
    if n < |batches| - 1 {
      BatchInDocument(batches[..|batches| - 1], n, row);
    }
  }
}
