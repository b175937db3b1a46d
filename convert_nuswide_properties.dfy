/** What a run of the record loop guarantees about the database writes it
    issues: which records are written and under which keys, how the
    writes are batched into commits, the `size` limit, count mode, and the
    reported total. */
module ConvertNuswideProperties {
  import opened Blobs
  import opened RecordKey
  import opened ConvertNuswide

  function NumPuts(t: seq<Event>): nat {
    if |t| == 0 then 0 else NumPuts(t[..|t| - 1]) + (if t[|t| - 1].Put? then 1 else 0)
  }

  function NumCommits(t: seq<Event>): nat {
    if |t| == 0 then 0 else NumCommits(t[..|t| - 1]) + (if t[|t| - 1].Commit? then 1 else 0)
  }

  /** How many of `lines` pass the label filter and get a line id. */
  function NumNumbered(s: Setup, lines: seq<seq<string>>): nat {
    if |lines| == 0 then 0
    else NumNumbered(s, lines[..|lines| - 1]) + (if Numbered(s, lines[|lines| - 1]) then 1 else 0)
  }

  /** A written record has between 1 and `max_labels` labels (when that
      is positive), all whitelisted; while line ids fit eight digits, its
      key is well formed and carries a line id from `start` to `lineId`. */
  predicate WrittenRecord(s: Setup, lineId: int, e: Event) {
    e.Put? ==> (0 < |e.labels| && (s.flags.maxLabels > 0 ==> |e.labels| <= s.flags.maxLabels)
      && (forall l | l in e.labels :: l in s.labelset)
      && (lineId < KeyIdLimit ==> WellFormedKey(e.key) && s.flags.start <= KeyLineId(e.key) <= lineId))
  }

  /** The keys of the writes of `t` sort in the order of the writes. */
  predicate KeysAscending(t: seq<Event>) {
    forall a, b | 0 <= a < b < |t| && t[a].Put? && t[b].Put? :: LexLess(t[a].key, t[b].key)
  }

  /** What holds of the counters and the events between two lines. */
  predicate Consistent(s: Setup, c: Counters, t: seq<Event>) {
    c.lineId >= -1
    && NumPuts(t) == c.count && NumCommits(t) == c.count / CommitInterval
    && (c.count > 0 && c.count % CommitInterval == 0 ==> |t| > 0 && t[|t| - 1] == Commit)
    && (s.flags.countOnly ==> t == [])
    && (s.flags.size > 0 ==> c.count <= s.flags.size)
    && (forall e | e in t :: WrittenRecord(s, c.lineId, e))
    && (c.lineId < KeyIdLimit ==> KeysAscending(t))
  }

  lemma {:induction false} CountsAppend(a: seq<Event>, b: seq<Event>)
    ensures NumPuts(a + b) == NumPuts(a) + NumPuts(b)
    ensures NumCommits(a + b) == NumCommits(a) + NumCommits(b)
  {
    if |b| > 0 {
      var b' := b[..|b| - 1];
      assert (a + b)[..|a + b| - 1] == a + b';
      assert (a + b)[|a + b| - 1] == b[|b| - 1];
      CountsAppend(a, b');
    } else {
      assert a + b == a;
    }
  }

  lemma CountsOfCommit()
    ensures NumPuts([Commit]) == 0 && NumCommits([Commit]) == 1
  {
    assert [Commit][..0] == [];
  }

  lemma CountsOfPut(e: Event)
    requires e.Put?
    ensures NumPuts([e]) == 1 && NumCommits([e]) == 0
  {
    assert [e][..0] == [];
  }

  /** Appending a commit keeps the keys in order. */
  lemma AscendingWithCommit(t: seq<Event>)
    requires KeysAscending(t)
    ensures KeysAscending(t + [Commit])
  {
    var t' := t + [Commit];
    forall a, b | 0 <= a < b < |t'| && t'[a].Put? && t'[b].Put? ensures LexLess(t'[a].key, t'[b].key) {
      assert b < |t|;
      assert t'[a] == t[a] && t'[b] == t[b];
    }
  }

  /** Appending a write whose key has a larger line id than every earlier
      key keeps the keys in order. */
  lemma AscendingWithPut(t: seq<Event>, e: Event, lineId: int)
    requires KeysAscending(t)
    requires forall x | x in t && x.Put? :: WellFormedKey(x.key) && KeyLineId(x.key) < lineId
    requires e.Put? && WellFormedKey(e.key) && KeyLineId(e.key) == lineId
    ensures KeysAscending(t + [e])
  {
    var t' := t + [e];
    forall a, b | 0 <= a < b < |t'| && t'[a].Put? && t'[b].Put? ensures LexLess(t'[a].key, t'[b].key) {
      assert t'[a] == t[a] && t[a] in t;
      if b == |t| {
        WellFormedKeysOrdered(t[a].key, e.key);
      } else {
        assert t'[b] == t[b];
      }
    }
  }

  /** One more record completes a batch exactly when the count reaches a
      multiple of 1000. */
  lemma NextBatch(n: nat)
    ensures (n + 1) / CommitInterval == n / CommitInterval + (if (n + 1) % CommitInterval == 0 then 1 else 0)
  {
    var q, m := n / CommitInterval, n % CommitInterval;
    DivModOfOffset(q, CommitInterval, m, n);
    if m == CommitInterval - 1 {
      DivModOfOffset(q + 1, CommitInterval, 0, n + 1);
    } else {
      DivModOfOffset(q, CommitInterval, m + 1, n + 1);
    }
  }

  /** The count after a line: a write adds one, and a commit follows it
      when the count reaches a multiple of 1000. */
  lemma BatchCounts(c: Counters, after: Counters, t: seq<Event>, events: seq<Event>)
    requires NumPuts(t) == c.count && NumCommits(t) == c.count / CommitInterval
    requires Batched(after, events) && after.count == c.count + (if events == [] then 0 else 1)
    ensures NumPuts(t + events) == after.count && NumCommits(t + events) == after.count / CommitInterval
  {
    CountsAppend(t, events);
    CountsOfBatch(after, events);
    if events == [] {
      assert after.count == c.count;
    } else {
      var n := c.count;
      NextBatch(n);
      assert after.count == n + 1;
      assert NumCommits(events) == (if (n + 1) % CommitInterval == 0 then 1 else 0);
    }
  }

  /** The writes and commits of one line's events. */
  lemma CountsOfBatch(after: Counters, events: seq<Event>)
    requires Batched(after, events)
    ensures NumPuts(events) == (if events == [] then 0 else 1)
    ensures NumCommits(events) == (if events != [] && after.count % CommitInterval == 0 then 1 else 0)
  {
    if events != [] {
      CountsOfPut(events[0]);
      if |events| == 2 {
        assert events == [events[0]] + [Commit];
        CountsAppend([events[0]], [Commit]);
        CountsOfCommit();
      } else {
        assert events == [events[0]];
      }
    }
  }

  /** A write of a record with the labels and the next line id keeps the
      run consistent. */
  lemma WriteKeepsConsistent(s: Setup, c: Counters, after: Counters, t: seq<Event>, events: seq<Event>,
                             path: string, labels: seq<int>)
    requires Consistent(s, c, t)
    requires s.flags.size > 0 ==> c.count < s.flags.size
    requires 0 < |labels| && (s.flags.maxLabels > 0 ==> |labels| <= s.flags.maxLabels)
    requires forall l | l in labels :: l in s.labelset
    requires after.lineId == c.lineId + 1 && s.flags.start <= after.lineId && !s.flags.countOnly
    requires after.count == c.count + 1 && (s.flags.size > 0 ==> after.count <= s.flags.size)
    requires events != [] && Batched(after, events) && events[0] == Put(Key(after.lineId, path), labels)
    ensures Consistent(s, after, t + events)
  {
    var e := events[0];
    var id := after.lineId;
    BatchCounts(c, after, t, events);
    if id < KeyIdLimit {
      KeyOfLineId(id, path);
    }
    assert WrittenRecord(s, id, e);
    var t1 := t + [e];
    assert forall x | x in t1 :: WrittenRecord(s, id, x) by {
      assert forall x | x in t :: WrittenRecord(s, c.lineId, x);
    }
    if id < KeyIdLimit {
      AscendingWithPut(t, e, id);
    }
    if |events| == 2 {
      assert t + events == t1 + [Commit];
      if id < KeyIdLimit {
        AscendingWithCommit(t1);
      }
    } else {
      assert t + events == t1;
    }
  }

  /** Every line that does not abort keeps the run consistent, and one
      that goes on leaves room below a positive `size`. */
  lemma LineKeepsConsistent(s: Setup, c: Counters, t: seq<Event>, tokens: seq<string>, line: nat)
    requires Consistent(s, c, t)
    requires s.flags.size > 0 ==> c.count < s.flags.size
    requires !HandleLine(s, c, tokens, line).Fail?
    ensures var r := HandleLine(s, c, tokens, line);
      Consistent(s, r.after, t + r.events)
      && (r.Next? ==> (s.flags.size > 0 ==> r.after.count < s.flags.size))
  {
    var r := HandleLine(s, c, tokens, line);
    if r.events == [] {
      assert t + r.events == t;
      assert forall x | x in t :: WrittenRecord(s, r.after.lineId, x) by {
        assert forall x | x in t :: WrittenRecord(s, c.lineId, x);
      }
    } else {
      var scan := ScanLabels(tokens, 2, s.labelset, s.io.parseLabel);
      WriteKeepsConsistent(s, c, r.after, t, r.events, tokens[1], scan.retained);
    }
  }

  /** What a run guarantees about its writes and its outcome. */
  predicate Guaranteed(s: Setup, lines: seq<seq<string>>, r: Run) {
    (forall e | e in r.events :: WrittenRecord(s, if |lines| <= KeyIdLimit then |lines| - 1 else KeyIdLimit, e))
    && (|lines| <= KeyIdLimit ==> KeysAscending(r.events))
    && (s.flags.size > 0 ==> NumPuts(r.events) <= s.flags.size)
    && (s.flags.countOnly ==> r.events == [])
    && (r.outcome.Finished? ==>
          NumCommits(r.events) == (NumPuts(r.events) + CommitInterval - 1) / CommitInterval
          && (NumPuts(r.events) > 0 ==> r.events[|r.events| - 1] == Commit))
  }

  /** The end of the loop commits the last partial batch. */
  lemma FinishGuarantees(s: Setup, lines: seq<seq<string>>, c: Counters, t: seq<Event>)
    requires Consistent(s, c, t) && c.lineId < |lines|
    ensures Guaranteed(s, lines, Finish(c, t))
  {
    var r := Finish(c, t);
    var bound := if |lines| <= KeyIdLimit then |lines| - 1 else KeyIdLimit;
    assert forall x | x in t :: WrittenRecord(s, bound, x) by {
      assert forall x | x in t :: WrittenRecord(s, c.lineId, x);
    }
    FinishCounts(c, t);
    if c.count % CommitInterval != 0 && |lines| <= KeyIdLimit {
      AscendingWithCommit(t);
    }
  }

  /** The final commit makes one commit per started batch of 1000 writes
      and leaves a commit last. */
  lemma FinishCounts(c: Counters, t: seq<Event>)
    requires NumPuts(t) == c.count && NumCommits(t) == c.count / CommitInterval
    requires c.count > 0 && c.count % CommitInterval == 0 ==> |t| > 0 && t[|t| - 1] == Commit
    ensures var r := Finish(c, t);
      NumPuts(r.events) == c.count
      && NumCommits(r.events) == (c.count + CommitInterval - 1) / CommitInterval
      && (c.count > 0 ==> r.events[|r.events| - 1] == Commit)
  {
    CeilBatches(c.count);
    if c.count % CommitInterval != 0 {
      CountsAppend(t, [Commit]);
      CountsOfCommit();
    } else {
      assert Finish(c, t).events == t;
    }
  }

  /** The number of batches of 1000 that `n` writes start. */
  lemma CeilBatches(n: nat)
    ensures (n + CommitInterval - 1) / CommitInterval == n / CommitInterval + (if n % CommitInterval != 0 then 1 else 0)
  {
    var q, m := n / CommitInterval, n % CommitInterval;
    DivModOfOffset(q, CommitInterval, m, n);
    if m == 0 {
      DivModOfOffset(q, CommitInterval, CommitInterval - 1, n + CommitInterval - 1);
    } else {
      DivModOfOffset(q + 1, CommitInterval, m - 1, n + CommitInterval - 1);
    }
  }

  /** An abort keeps the writes issued so far. */
  lemma AbortGuarantees(s: Setup, lines: seq<seq<string>>, c: Counters, t: seq<Event>, why: Abort)
    requires Consistent(s, c, t) && c.lineId < |lines|
    ensures Guaranteed(s, lines, Run(t, Aborted(why)))
  {
    var bound := if |lines| <= KeyIdLimit then |lines| - 1 else KeyIdLimit;
    assert forall x | x in t :: WrittenRecord(s, bound, x) by {
      assert forall x | x in t :: WrittenRecord(s, c.lineId, x);
    }
  }

  lemma NumNumberedSnoc(s: Setup, lines: seq<seq<string>>, i: nat)
    requires i < |lines|
    ensures NumNumbered(s, lines[..i + 1]) == NumNumbered(s, lines[..i]) + (if Numbered(s, lines[i]) then 1 else 0)
  {
    assert lines[..i + 1][..i] == lines[..i];
  }

  /** A line that aborts or stops the run ends it with the guarantees. */
  lemma LastLineGuarantees(s: Setup, lines: seq<seq<string>>, i: nat, c: Counters, t: seq<Event>)
    requires i < |lines| && Consistent(s, c, t) && c.lineId < i
    requires s.flags.size > 0 ==> c.count < s.flags.size
    requires !HandleLine(s, c, lines[i], i).Next?
    ensures Guaranteed(s, lines, RunFrom(s, lines, i, c, t))
  {
    RunFromStep(s, lines, i, c, t);
    var r := HandleLine(s, c, lines[i], i);
    if r.Fail? {
      AbortGuarantees(s, lines, c, t, r.why);
    } else {
      LineKeepsConsistent(s, c, t, lines[i], i);
      FinishGuarantees(s, lines, r.after, t + r.events);
    }
  }

  /** The run from line `i` on keeps every guarantee. */
  lemma {:induction false} RunFromGuarantees(s: Setup, lines: seq<seq<string>>, i: nat, c: Counters, t: seq<Event>)
    requires i <= |lines| && Consistent(s, c, t) && c.lineId < i
    requires s.flags.size > 0 ==> c.count < s.flags.size
    ensures Guaranteed(s, lines, RunFrom(s, lines, i, c, t))
    decreases |lines| - i
  {
    if i == |lines| {
      FinishGuarantees(s, lines, c, t);
    } else if !HandleLine(s, c, lines[i], i).Next? {
      LastLineGuarantees(s, lines, i, c, t);
    } else {
      RunFromStep(s, lines, i, c, t);
      var r := HandleLine(s, c, lines[i], i);
      LineKeepsConsistent(s, c, t, lines[i], i);
      RunFromGuarantees(s, lines, i + 1, r.after, t + r.events);
    }
  }

  /** When neither a positive `size` nor count mode can cut the run short,
      a finished run reports `line_id + 1` equal to the number of lines
      that pass the label filter. */
  lemma {:induction false} RunFromTotal(s: Setup, lines: seq<seq<string>>, i: nat, c: Counters, t: seq<Event>)
    requires i <= |lines| && c.lineId >= -1
    requires c.lineId + 1 == NumNumbered(s, lines[..i])
    ensures var r := RunFrom(s, lines, i, c, t);
      r.outcome.Finished? && (s.flags.size <= 0 || s.flags.countOnly) ==> r.outcome.total == NumNumbered(s, lines)
    decreases |lines| - i
  {
    if i == |lines| {
      assert lines[..i] == lines;
    } else {
      RunFromStep(s, lines, i, c, t);
      var r := HandleLine(s, c, lines[i], i);
      if r.Next? {
        NumNumberedSnoc(s, lines, i);
        RunFromTotal(s, lines, i + 1, r.after, t + r.events);
      }
    }
  }

  /** The guarantees and the reported total of a whole run. */
  lemma ConvertGuarantees(f: Flags, root: string, io: Io, lines: seq<seq<string>>)
    requires f.nlabels <= NumLabels
    ensures Guaranteed(MakeSetup(f, root, io), lines, Convert(f, root, io, lines))
    ensures var r := Convert(f, root, io, lines);
      r.outcome.Finished? && (f.size <= 0 || f.countOnly) ==> r.outcome.total == NumNumbered(MakeSetup(f, root, io), lines)
  {
    var s := MakeSetup(f, root, io);
    var c := Counters(-1, 0, None);
    assert lines[..0] == [];
    RunFromGuarantees(s, lines, 0, c, []);
    RunFromTotal(s, lines, 0, c, []);
  }

  /** Every written record has at least one label, at most `max_labels`
      when that is positive, and only labels of the whitelist; while line
      ids fit eight digits, its key carries a line id from `start` on. */
  lemma WrittenRecordsPassFilter(f: Flags, root: string, io: Io, lines: seq<seq<string>>)
    requires f.nlabels <= NumLabels
    ensures forall e | e in Convert(f, root, io, lines).events && e.Put? ::
      0 < |e.labels| && (f.maxLabels > 0 ==> |e.labels| <= f.maxLabels)
      && (forall l | l in e.labels :: l in LabelSet(f.nlabels))
      && (|lines| <= KeyIdLimit ==> WellFormedKey(e.key) && f.start <= KeyLineId(e.key) < |lines|)
  {
    ConvertGuarantees(f, root, io, lines);
  }

  /** With fewer than `10^8` lines, the keys of the written records are
      distinct and sort in the order the records are written. */
  lemma KeysStrictlyIncrease(f: Flags, root: string, io: Io, lines: seq<seq<string>>)
    requires f.nlabels <= NumLabels && |lines| <= KeyIdLimit
    ensures var t := Convert(f, root, io, lines).events;
      forall a, b | 0 <= a < b < |t| && t[a].Put? && t[b].Put? :: LexLess(t[a].key, t[b].key) && t[a].key != t[b].key
  {
    ConvertGuarantees(f, root, io, lines);
  }

  /** A finished run commits once per 1000 writes and once more for a
      partial last batch, and its last event is a commit. */
  lemma EveryWriteCommitted(f: Flags, root: string, io: Io, lines: seq<seq<string>>)
    requires f.nlabels <= NumLabels
    ensures var r := Convert(f, root, io, lines);
      r.outcome.Finished? ==>
        NumCommits(r.events) == (NumPuts(r.events) + CommitInterval - 1) / CommitInterval
        && (NumPuts(r.events) > 0 ==> r.events[|r.events| - 1] == Commit)
  {
    ConvertGuarantees(f, root, io, lines);
  }

  /** A positive `size` bounds the number of records written. */
  lemma SizeBoundsWrites(f: Flags, root: string, io: Io, lines: seq<seq<string>>)
    requires f.nlabels <= NumLabels && f.size > 0
    ensures NumPuts(Convert(f, root, io, lines).events) <= f.size
  {
    ConvertGuarantees(f, root, io, lines);
  }

  /** Count mode writes nothing and, when it finishes, reports the number
      of lines that pass the label filter. */
  lemma CountModeOnlyCounts(f: Flags, root: string, io: Io, lines: seq<seq<string>>)
    requires f.nlabels <= NumLabels && f.countOnly
    ensures var r := Convert(f, root, io, lines);
      r.events == [] && (r.outcome.Finished? ==> r.outcome.total == NumNumbered(MakeSetup(f, root, io), lines))
  {
    ConvertGuarantees(f, root, io, lines);
  }

  /** Without a `size` limit, a finished run reports the number of lines
      that pass the label filter, written or not. */
  lemma TotalCountsNumberedLines(f: Flags, root: string, io: Io, lines: seq<seq<string>>)
    requires f.nlabels <= NumLabels && f.size <= 0
    ensures var r := Convert(f, root, io, lines);
      r.outcome.Finished? ==> r.outcome.total == NumNumbered(MakeSetup(f, root, io), lines)
  {
    ConvertGuarantees(f, root, io, lines);
  }

  lemma FirstLabelAllowed(labels: seq<int>, allowed: set<int>)
    requires 0 < |labels| && forall l | l in labels :: l in allowed
    ensures labels[0] in allowed
  {
    var first := labels[0];
    assert first in labels;
  }

  /** An empty whitelist (`nlabels <= 0`) lets no record through. */
  lemma EmptyWhitelistWritesNothing(f: Flags, root: string, io: Io, lines: seq<seq<string>>)
    requires f.nlabels <= 0
    ensures forall e | e in Convert(f, root, io, lines).events :: !e.Put?
  {
    WrittenRecordsPassFilter(f, root, io, lines);
    LabelSetGrows(f.nlabels, f.nlabels);
    var t := Convert(f, root, io, lines).events;
    forall e | e in t ensures !e.Put? {
      if e.Put? {
        FirstLabelAllowed(e.labels, LabelSet(f.nlabels));
      }
    }
  }

  // ------------------------------------------------------- what gets written

  /** A line the loop writes once its text and image pass the checks: it
      is numbered `lineId`, from `start` on, outside count mode, and its
      image can be read. */
  predicate Writes(s: Setup, tokens: seq<string>, lineId: int) {
    Qualifies(s, tokens, lineId) && ImageOf(s, tokens[1]).Some?
  }

  /** How many of `lines` are written, each judged under the line id the
      numbering gives it. */
  function NumWritten(s: Setup, lines: seq<seq<string>>): nat {
    if |lines| == 0 then 0
    else
      var last := lines[|lines| - 1];
      NumWritten(s, lines[..|lines| - 1]) + (if Writes(s, last, NumNumbered(s, lines) - 1) then 1 else 0)
  }

  lemma NumWrittenSnoc(s: Setup, lines: seq<seq<string>>, i: nat)
    requires i < |lines|
    ensures NumWritten(s, lines[..i + 1])
      == NumWritten(s, lines[..i]) + (if Writes(s, lines[i], NumNumbered(s, lines[..i + 1]) - 1) then 1 else 0)
  {
    assert lines[..i + 1][..i] == lines[..i];
  }

  /** A line that does not abort writes one record exactly when it is a
      line the loop writes, and that record comes first. */
  lemma StepWrites(s: Setup, c: Counters, tokens: seq<string>, line: nat)
    requires c.lineId >= -1 && !HandleLine(s, c, tokens, line).Fail?
    ensures var r := HandleLine(s, c, tokens, line);
      NumPuts(r.events) == (if Writes(s, tokens, c.lineId + 1) then 1 else 0)
      && (Writes(s, tokens, c.lineId + 1) ==>
            r.events != [] && r.events[0] == Put(Key(c.lineId + 1, tokens[1]), Scan(s, tokens).retained))
  {
    var r := HandleLine(s, c, tokens, line);
    if r.events != [] {
      CountsOfPut(r.events[0]);
      if |r.events| == 2 {
        CountsAppend([r.events[0]], [Commit]);
        CountsOfCommit();
        assert r.events == [r.events[0]] + [Commit];
      } else {
        assert r.events == [r.events[0]];
      }
    }
  }

  /** Without a `size` limit, a line of a run that finishes goes on to
      the next line (it neither aborts nor stops the run). */
  lemma FinishedRunGoesOn(s: Setup, lines: seq<seq<string>>, j: nat, c: Counters, t: seq<Event>)
    requires j < |lines| && c.lineId >= -1 && s.flags.size <= 0
    requires RunFrom(s, lines, j, c, t).outcome.Finished?
    ensures var r := HandleLine(s, c, lines[j], j);
      r.Next? && RunFrom(s, lines, j, c, t) == RunFrom(s, lines, j + 1, r.after, t + r.events)
  {
    RunFromStep(s, lines, j, c, t);
  }

  /** In a run without a `size` limit that finishes, the events so far
      stay a prefix, and every line from `j` on adds one write exactly
      when it is a line the loop writes. */
  lemma {:induction false} RunFromCountsWrites(s: Setup, lines: seq<seq<string>>, j: nat, c: Counters, t: seq<Event>)
    requires j <= |lines| && c.lineId >= -1 && c.lineId + 1 == NumNumbered(s, lines[..j])
    requires s.flags.size <= 0
    ensures var r := RunFrom(s, lines, j, c, t);
      r.outcome.Finished? ==>
        t <= r.events && NumPuts(r.events) + NumWritten(s, lines[..j]) == NumPuts(t) + NumWritten(s, lines)
    decreases |lines| - j
  {
    if j == |lines| {
      assert lines[..j] == lines;
      if c.count % CommitInterval != 0 {
        CountsAppend(t, [Commit]);
        CountsOfCommit();
      } else {
        assert t + [] == t;
      }
    } else if RunFrom(s, lines, j, c, t).outcome.Finished? {
      FinishedRunGoesOn(s, lines, j, c, t);
      var r := HandleLine(s, c, lines[j], j);
      StepWrites(s, c, lines[j], j);
      NumNumberedSnoc(s, lines, j);
      NumWrittenSnoc(s, lines, j);
      CountsAppend(t, r.events);
      RunFromCountsWrites(s, lines, j + 1, r.after, t + r.events);
    }
  }

  /** Line `i` is a line the loop writes, under the line id the
      numbering gives it. */
  predicate WrittenLine(s: Setup, lines: seq<seq<string>>, i: nat) {
    i < |lines| && Writes(s, lines[i], NumNumbered(s, lines[..i + 1]) - 1)
  }

  /** The write of line `i`: its key and its retained labels. */
  function LineRecord(s: Setup, lines: seq<seq<string>>, i: nat): Event
    requires WrittenLine(s, lines, i)
  {
    Put(Key(NumNumbered(s, lines[..i + 1]) - 1, lines[i][1]), Scan(s, lines[i]).retained)
  }

  /** In a run without a `size` limit that finishes, line `i`, when it is
      a line the loop writes, is written as `e`: under the key of its line
      id, with its retained labels. */
  lemma {:induction false} RunFromWritesLine(s: Setup, lines: seq<seq<string>>, j: nat, c: Counters, t: seq<Event>,
                                             i: nat, e: Event)
    requires j <= i < |lines| && c.lineId >= -1 && c.lineId + 1 == NumNumbered(s, lines[..j])
    requires s.flags.size <= 0
    requires WrittenLine(s, lines, i) && e == LineRecord(s, lines, i)
    ensures RunFrom(s, lines, j, c, t).outcome.Finished? ==> e in RunFrom(s, lines, j, c, t).events
    decreases i - j
  {
    if RunFrom(s, lines, j, c, t).outcome.Finished? {
      FinishedRunGoesOn(s, lines, j, c, t);
      var r := HandleLine(s, c, lines[j], j);
      NumNumberedSnoc(s, lines, j);
      if j < i {
        RunFromWritesLine(s, lines, j + 1, r.after, t + r.events, i, e);
      } else {
        assert i == j;
        WrittenAtItsLine(s, lines, i, c, t, e);
      }
    }
  }

  /** The line the loop writes puts `e` into the events of the rest of a
      run that finishes. */
  lemma WrittenAtItsLine(s: Setup, lines: seq<seq<string>>, j: nat, c: Counters, t: seq<Event>, e: Event)
    requires j < |lines| && c.lineId >= -1 && c.lineId + 1 == NumNumbered(s, lines[..j])
    requires s.flags.size <= 0
    requires NumNumbered(s, lines[..j + 1]) == NumNumbered(s, lines[..j]) + (if Numbered(s, lines[j]) then 1 else 0)
    requires Writes(s, lines[j], NumNumbered(s, lines[..j + 1]) - 1)
    requires e == Put(Key(NumNumbered(s, lines[..j + 1]) - 1, lines[j][1]), Scan(s, lines[j]).retained)
    requires RunFrom(s, lines, j, c, t).outcome.Finished?
    ensures e in RunFrom(s, lines, j, c, t).events
  {
    FinishedRunGoesOn(s, lines, j, c, t);
    var r := HandleLine(s, c, lines[j], j);
    StepWrites(s, c, lines[j], j);
    assert r.events[0] == e;
    NumNumberedSnoc(s, lines, j);
    RunFromCountsWrites(s, lines, j + 1, r.after, t + r.events);
    var final := RunFrom(s, lines, j + 1, r.after, t + r.events).events;
    assert final[|t|] == (t + r.events)[|t|];
  }

  /** Every line of `lines` that the loop writes is written in run `r`
      under the key of its line id, with its retained labels. */
  predicate WritesEveryLine(s: Setup, lines: seq<seq<string>>, r: Run) {
    forall i: nat | i < |lines| && WrittenLine(s, lines, i) :: LineRecord(s, lines, i) in r.events
  }

  /** Without a `size` limit, a finished run writes every line the loop
      writes (numbered, from `start` on, outside count mode, with a
      readable image; the text and data size checks hold, or the run would
      have aborted) under the key of its line id with its retained
      labels, and writes nothing else: one write per such line. */
  lemma QualifyingLinesWritten(f: Flags, root: string, io: Io, lines: seq<seq<string>>)
    requires f.nlabels <= NumLabels && f.size <= 0
    ensures var s, r := MakeSetup(f, root, io), Convert(f, root, io, lines);
      r.outcome.Finished? ==> NumPuts(r.events) == NumWritten(s, lines) && WritesEveryLine(s, lines, r)
  {
    RunWritesEveryLine(MakeSetup(f, root, io), lines);
  }

  /** `QualifyingLinesWritten` for the run of any setup. */
  lemma RunWritesEveryLine(s: Setup, lines: seq<seq<string>>)
    requires s.flags.size <= 0
    ensures var r := RunFrom(s, lines, 0, Counters(-1, 0, None), []);
      r.outcome.Finished? ==> NumPuts(r.events) == NumWritten(s, lines) && WritesEveryLine(s, lines, r)
  {
    var c := Counters(-1, 0, None);
    var r := RunFrom(s, lines, 0, c, []);
    assert lines[..0] == [];
    RunFromCountsWrites(s, lines, 0, c, []);
    forall i: nat | i < |lines| && WrittenLine(s, lines, i) ensures r.outcome.Finished? ==> LineRecord(s, lines, i) in r.events {
      RunFromWritesLine(s, lines, 0, c, [], i, LineRecord(s, lines, i));
    }
  }
}
