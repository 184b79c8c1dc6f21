/**
 * `combine_file_level`: for every instance of the model localization file not
 * yet present in the output file, merge its file list with the retrieval
 * file list of the same instance by vote and append one record to the output
 * file.
 *
 * JSONL files are sequences of records; the output file is an object whose
 * record list grows by appending.
 */
module Combine {

  import opened Wrappers
  import opened FileRanking

  /** A line of the model or of the retrieval localization file. */
  datatype LocRecord = LocRecord(instanceId: string, foundFiles: seq<File>)

  /** A line of the combined output file. */
  datatype CombinedRecord = CombinedRecord(
    instanceId: string,
    foundFiles: seq<File>,
    additionalArtifactLocFile: map<string, string>,
    fileTraj: map<string, string>)

  /** How a run ends: every instance handled, or an instance without a retrieval record. */
  datatype Outcome = Completed | MissingRetrieval(instanceId: string)

  /** The records a run appends, in order, and how it ends. */
  datatype Run = Run(written: seq<CombinedRecord>, outcome: Outcome)

  /** The output file, opened in append mode once per processed instance. */
  class OutputFile {
    var records: seq<CombinedRecord>

    constructor (existing: seq<CombinedRecord>)
      ensures records == existing
    {
      records := existing;
    }

    method Append(r: CombinedRecord)
      modifies this
      ensures records == old(records) + [r]
    {
      records := records + [r];
    }
  }

  /** The instance ids already present in the output file. */
  function InstanceIds(records: seq<CombinedRecord>): set<string> {
    set r | r in records :: r.instanceId
  }

  /** `[x for x in embed_used_locs if x["instance_id"] == instance_id]` */
  function Matches(embed: seq<LocRecord>, id: string): (m: seq<LocRecord>)
    ensures forall r :: r in m <==> r in embed && r.instanceId == id
    ensures forall j :: IsFirstMatch(embed, id, j) ==> m != [] && m[0] == embed[j]
  {
    if embed == [] then []
    else if embed[0].instanceId == id then [embed[0]] + Matches(embed[1..], id)
    else
      assert forall j :: IsFirstMatch(embed, id, j) ==> IsFirstMatch(embed[1..], id, j - 1);
      Matches(embed[1..], id)
  }

  /** `embed[j]` is the first record of `embed` for instance `id`. */
  predicate IsFirstMatch(embed: seq<LocRecord>, id: string, j: int) {
    && 0 <= j < |embed|
    && embed[j].instanceId == id
    && forall k :: 0 <= k < j ==> embed[k].instanceId != id
  }

  /** The record written for `pred`, or None where `[0]` fails on an empty match list. */
  function CombineInstance(pred: LocRecord, embed: seq<LocRecord>, topN: int): (r: Option<CombinedRecord>)
    ensures r.None? <==> forall e :: e in embed ==> e.instanceId != pred.instanceId
    ensures r.Some? ==> r.value.instanceId == pred.instanceId
    ensures r.Some? ==> r.value.additionalArtifactLocFile == map[] && r.value.fileTraj == map[]
    ensures forall j :: IsFirstMatch(embed, pred.instanceId, j) ==>
              r.Some? && r.value.foundFiles == CombinedLocs(pred.foundFiles, embed[j].foundFiles, topN)
  {
    var m := Matches(embed, pred.instanceId);
    if m == [] then None
    else Some(CombinedRecord(pred.instanceId, CombinedLocs(pred.foundFiles, m[0].foundFiles, topN), map[], map[]))
  }

  /**
   * What one call appends, given the set of ids read from the output file
   * before the loop: instances in `skip` are passed over; the first instance
   * without a retrieval record ends the run with nothing more written.
   */
  function Process(skip: set<string>, preds: seq<LocRecord>, embed: seq<LocRecord>, topN: int): (run: Run)
    ensures |run.written| <= |preds|
    ensures run.outcome.MissingRetrieval? ==> run.outcome.instanceId !in skip
  {
    if preds == [] then Run([], Completed)
    else
      var before := Process(skip, preds[..|preds| - 1], embed, topN);
      var p := preds[|preds| - 1];
      if before.outcome.MissingRetrieval? || p.instanceId in skip then before
      else match CombineInstance(p, embed, topN)
        case None => Run(before.written, MissingRetrieval(p.instanceId))
        case Some(rec) => Run(before.written + [rec], Completed)
  }

  /** The model records whose id is not in `skip`, in file order. */
  function Pending(skip: set<string>, preds: seq<LocRecord>): seq<LocRecord> {
    if preds == [] then []
    else
      var before := Pending(skip, preds[..|preds| - 1]);
      if preds[|preds| - 1].instanceId in skip then before else before + [preds[|preds| - 1]]
  }

  // ---------------------------------------------------------------------------
  // The imperative core
  // ---------------------------------------------------------------------------

  /** `existing_instances`, filled by one pass over the output file. */
  method ExistingInstances(records: seq<CombinedRecord>) returns (ids: set<string>)
    ensures forall id :: id in ids <==> exists r :: r in records && r.instanceId == id
  {
    ids := {};
    for i := 0 to |records|
      invariant ids == InstanceIds(records[..i])
    {
      assert records[..i + 1] == records[..i] + [records[i]];
      ids := ids + {records[i].instanceId};
    }
    assert records[..|records|] == records;
  }

  /** The two counting loops and `most_common()` of one instance. */
  method CombineLocs(modelLoc: seq<File>, retrieveLoc: seq<File>, topN: int) returns (combined: seq<File>)
    ensures combined == CombinedLocs(modelLoc, retrieveLoc, topN)
  {
    var counter := Counter([], multiset{});
    var m := Head(modelLoc, topN);
    for i := 0 to |m|
      invariant counter == CounterOf(m[..i])
    {
      assert m[..i + 1] == m[..i] + [m[i]];
      CounterOfAppend(m[..i], m[i]);
      counter := counter.Add(m[i]);
    }
    assert m[..|m|] == m;
    var r := Head(retrieveLoc, topN);
    assert m + r[..0] == m;
    for i := 0 to |r|
      invariant counter == CounterOf(m + r[..i])
    {
      assert (m + r[..i + 1]) == (m + r[..i]) + [r[i]];
      CounterOfAppend(m + r[..i], r[i]);
      counter := counter.Add(r[i]);
    }
    assert m + r[..|r|] == Ballot(modelLoc, retrieveLoc, topN);
    combined := counter.MostCommon();
  }

  /**
   * `combine_file_level`, with the output file given as an object and the two
   * localization files as record sequences.
   */
  method CombineFileLevel(output: OutputFile, modelUsedLocs: seq<LocRecord>, embedUsedLocs: seq<LocRecord>, topN: int)
    returns (outcome: Outcome)
    modifies output
    ensures var run := Process(InstanceIds(old(output.records)), modelUsedLocs, embedUsedLocs, topN);
            output.records == old(output.records) + run.written && outcome == run.outcome
  {
    var existing := ExistingInstances(output.records);
    assert existing == InstanceIds(output.records);
    ghost var initial := output.records;
    for i := 0 to |modelUsedLocs|
      invariant var run := Process(existing, modelUsedLocs[..i], embedUsedLocs, topN);
                output.records == initial + run.written && run.outcome == Completed
    {
      var pred := modelUsedLocs[i];
      ProcessStep(existing, modelUsedLocs, embedUsedLocs, topN, i);
      if pred.instanceId !in existing {
        var matches := Matches(embedUsedLocs, pred.instanceId);
        if matches == [] {
          assert CombineInstance(pred, embedUsedLocs, topN) == None;
          ProcessStopsAtFailure(existing, modelUsedLocs, embedUsedLocs, topN, i + 1);
          return MissingRetrieval(pred.instanceId);
        }
        var combined := CombineLocs(pred.foundFiles, matches[0].foundFiles, topN);
        assert CombineInstance(pred, embedUsedLocs, topN) == Some(CombinedRecord(pred.instanceId, combined, map[], map[]));
        output.Append(CombinedRecord(pred.instanceId, combined, map[], map[]));
      }
    }
    assert modelUsedLocs[..|modelUsedLocs|] == modelUsedLocs;
    return Completed;
  }

  // ---------------------------------------------------------------------------
  // Lemmas about a run
  // ---------------------------------------------------------------------------

  /** One more model record after a run that has not failed yet. */
  lemma ProcessStep(skip: set<string>, preds: seq<LocRecord>, embed: seq<LocRecord>, topN: int, i: nat)
    requires i < |preds| && Process(skip, preds[..i], embed, topN).outcome == Completed
    ensures var before, p := Process(skip, preds[..i], embed, topN), preds[i];
            Process(skip, preds[..i + 1], embed, topN) ==
              if p.instanceId in skip then before
              else match CombineInstance(p, embed, topN)
                case None => Run(before.written, MissingRetrieval(p.instanceId))
                case Some(rec) => Run(before.written + [rec], Completed)
  {
    assert preds[..i + 1][..i] == preds[..i];
  }

  /** Once an instance lacks a retrieval record, the rest of the model file is never looked at. */
  lemma {:induction false} ProcessStopsAtFailure(skip: set<string>, preds: seq<LocRecord>, embed: seq<LocRecord>, topN: int, k: nat)
    requires k <= |preds|
    requires Process(skip, preds[..k], embed, topN).outcome.MissingRetrieval?
    ensures Process(skip, preds, embed, topN) == Process(skip, preds[..k], embed, topN)
  {
    if k < |preds| {
      assert preds[..|preds| - 1][..k] == preds[..k];
      ProcessStopsAtFailure(skip, preds[..|preds| - 1], embed, topN, k);
    } else {
      assert preds[..k] == preds;
    }
  }

  /** Characterizes a run completely in terms of the pending instances. */
  lemma {:induction false} ProcessSpec(skip: set<string>, preds: seq<LocRecord>, embed: seq<LocRecord>, topN: int)
    ensures var run, pending := Process(skip, preds, embed, topN), Pending(skip, preds);
            && |run.written| <= |pending|
            && (forall k :: 0 <= k < |run.written| ==>
                  var p := pending[k];
                  var m := Matches(embed, p.instanceId);
                  && m != []
                  && run.written[k] == CombinedRecord(p.instanceId, CombinedLocs(p.foundFiles, m[0].foundFiles, topN), map[], map[]))
            && (run.outcome.Completed? ==> |run.written| == |pending|)
            && (run.outcome.MissingRetrieval? ==>
                  && |run.written| < |pending|
                  && pending[|run.written|].instanceId == run.outcome.instanceId
                  && Matches(embed, run.outcome.instanceId) == [])
  {
    if preds != [] {
      ProcessSpec(skip, preds[..|preds| - 1], embed, topN);
    }
  }

  /** A run completes exactly when every pending instance has a retrieval record. */
  lemma {:induction false} ProcessCompletes(skip: set<string>, preds: seq<LocRecord>, embed: seq<LocRecord>, topN: int)
    ensures Process(skip, preds, embed, topN).outcome.Completed?
        <==> forall p :: p in Pending(skip, preds) ==> Matches(embed, p.instanceId) != []
  {
    if preds != [] {
      ProcessCompletes(skip, preds[..|preds| - 1], embed, topN);
    }
  }

  /** No record is appended for an instance already present in the output file. */
  lemma {:induction false} ProcessSkipsExisting(skip: set<string>, preds: seq<LocRecord>, embed: seq<LocRecord>, topN: int)
    ensures forall r :: r in Process(skip, preds, embed, topN).written ==> r.instanceId !in skip
  {
    if preds != [] {
      ProcessSkipsExisting(skip, preds[..|preds| - 1], embed, topN);
    }
  }

  /**
   * The skip set is read once, before the loop: a model file that lists the
   * same new instance twice gets two identical records for it.
   */
  lemma DuplicateInstanceWrittenTwice(skip: set<string>, pred: LocRecord, embed: seq<LocRecord>, topN: int)
    requires pred.instanceId !in skip && Matches(embed, pred.instanceId) != []
    ensures var run := Process(skip, [pred, pred], embed, topN);
            && run.outcome == Completed
            && |run.written| == 2
            && run.written[0] == run.written[1]
            && run.written[0].instanceId == pred.instanceId
  {
    assert CombineInstance(pred, embed, topN).Some?;
    var rec := CombineInstance(pred, embed, topN).value;
    assert [pred][..0] == [];
    assert Process(skip, [pred], embed, topN) == Run([rec], Completed);
    assert [pred, pred][..1] == [pred];
    assert Process(skip, [pred, pred], embed, topN) == Run([rec, rec], Completed);
  }

  /** A run with nothing pending writes nothing and completes. */
  lemma {:induction false} NothingPending(skip: set<string>, preds: seq<LocRecord>, embed: seq<LocRecord>, topN: int)
    requires Pending(skip, preds) == []
    ensures Process(skip, preds, embed, topN) == Run([], Completed)
  {
    if preds != [] {
      var init := preds[..|preds| - 1];
      assert Pending(skip, init) == [];
      NothingPending(skip, init, embed, topN);
    }
  }

  /** Every model record is pending or has its id in the larger skip set. */
  lemma {:induction false} PendingCovered(skip: set<string>, preds: seq<LocRecord>, done: set<string>)
    requires forall p :: p in Pending(skip, preds) ==> p.instanceId in done
    ensures Pending(skip + done, preds) == []
  {
    if preds != [] {
      var init := preds[..|preds| - 1];
      assert forall p :: p in Pending(skip, init) ==> p in Pending(skip, preds);
      PendingCovered(skip, init, done);
    }
  }

  /**
   * Resuming: after a run that completed, a second run over the same inputs
   * (whose output file now holds the appended records) appends nothing.
   */
  lemma ResumeAppendsNothing(existing: seq<CombinedRecord>, preds: seq<LocRecord>, embed: seq<LocRecord>, topN: int)
    requires Process(InstanceIds(existing), preds, embed, topN).outcome == Completed
    ensures var run := Process(InstanceIds(existing), preds, embed, topN);
            Process(InstanceIds(existing + run.written), preds, embed, topN) == Run([], Completed)
  {
    var skip := InstanceIds(existing);
    var run := Process(skip, preds, embed, topN);
    var pending := Pending(skip, preds);
    ProcessSpec(skip, preds, embed, topN);
    forall p | p in pending ensures p.instanceId in InstanceIds(run.written) {
      var k :| 0 <= k < |pending| && pending[k] == p;
      assert run.written[k].instanceId == p.instanceId;
    }
    assert InstanceIds(existing + run.written) == skip + InstanceIds(run.written);
    PendingCovered(skip, preds, InstanceIds(run.written));
    NothingPending(skip + InstanceIds(run.written), preds, embed, topN);
  }
}
