/** The record filter and key generator of the NUS-WIDE ingestion tool.
    Each input line has already been split at spaces and `#` into tokens:
    a record index, the image path, label ids up to a `$$` token, then the
    text vector. The tool keeps the whitelisted labels, drops records with
    no label or too many, numbers the survivors, skips those before
    `start`, checks the text vector's length, reads the image and writes
    the record under its key, committing every 1000 records. Database
    writes are the `Event`s of a trace; parsing a token and reading an
    image are functions given with the input. */
module ConvertNuswide {
  import opened Blobs
  import opened RecordKey

  const NumLabels := 81

  /** Label ids in ascending order of the number of images they have. */
  const LabelPopularity: seq<int> := [36, 19, 57, 63, 80, 6, 23, 78, 48, 65, 52, 64, 29, 10,
    31, 14, 76, 26, 67, 16, 20, 17, 46, 0, 38, 71, 59, 47, 21, 27, 3, 77, 45,
    54, 15, 9, 66, 22, 32, 58, 35, 53, 12, 7, 69, 11, 18, 60, 43, 68, 25, 70,
    28, 37, 61, 4, 73, 33, 40, 5, 39, 2, 72, 56, 74, 51, 49, 62, 24, 50, 41,
    34, 44, 79, 8, 30, 1, 75, 42, 13, 55]

  /** Records are committed in batches of this many. */
  const CommitInterval := 1000

  /** The token that ends the label ids and starts the text vector. */
  const LabelEnd := "$$"

  /** The command-line flags the record loop reads. */
  datatype Flags = Flags(gray: bool, resizeWidth: int, resizeHeight: int, textDim: int,
                         nlabels: int, maxLabels: int, start: int, size: int, countOnly: bool)

  /** What reading an image yields: its shape and the length of its data. */
  datatype Image = Image(channels: nat, height: nat, width: nat, dataBytes: nat)

  /** The data size the first image sets: channels times height times width. */
  function Volume(image: Image): nat {
    image.channels * image.height * image.width
  }

  /** The calls into code outside the tool: `lexical_cast<int>` of a label
      token (`None` when it throws), whether `lexical_cast<float>` accepts
      a text token, and `ReadImageToDatum` on a path, height, width and
      colour flag (`None` when it fails). */
  datatype Io = Io(parseLabel: string -> Option<int>, parseFloat: string -> bool,
                   readImage: (string, nat, nat, bool) -> Option<Image>)

  /** A database write: a record stored under a key (its value reduced to
      its labels), or a commit of the writes so far. */
  datatype Event = Put(key: string, labels: seq<int>) | Commit

  /** Why a run ends early. `MissingLabelEnd` is a line without a `$$`
      token after the path, which the source scans past the end of its
      tokens; the next two are the exceptions of `lexical_cast`; the last
      two are failed `CHECK_EQ`s. Lines are counted from 0. */
  datatype Abort =
    | MissingLabelEnd(line: nat)
    | BadLabel(line: nat, token: string)
    | BadText(line: nat, token: string)
    | TextDimMismatch(lineId: nat, textSize: nat)
    | DataSizeMismatch(lineId: nat, dataBytes: nat)

  /** A run finishes and reports `line_id + 1` records, or aborts. */
  datatype Outcome = Finished(total: int) | Aborted(why: Abort)

  datatype Run = Run(events: seq<Event>, outcome: Outcome)

  /** What every line of the run shares: flags, whitelist, the clamped
      resize extents, the colour flag, the image root and the outside
      calls. */
  datatype Setup = Setup(flags: Flags, labelset: set<int>, height: nat, width: nat,
                         isColor: bool, root: string, io: Io)

  /** The loop's counters: `line_id` (-1 before the first numbered
      record), the number of records written, and the data size set by
      the first image read. */
  datatype Counters = Counters(lineId: int, count: nat, dataSize: Option<nat>)

  /** The outcome of one line: go on, stop after it, or abort. */
  datatype LineStep = Next(after: Counters, events: seq<Event>)
                    | Stop(after: Counters, events: seq<Event>)
                    | Fail(why: Abort)

  // ---------------------------------------------------------------- labels

  /** The entries of `LabelPopularity` at positions `from <= i < to`. */
  function Popular(from: int, to: int): set<int> {
    set i | 0 <= i < NumLabels && from <= i < to :: LabelPopularity[i]
  }

  /** The whitelist: the `nlabels` last, most popular, entries. */
  function LabelSet(nlabels: int): set<int>
    requires nlabels <= NumLabels
  {
    Popular(NumLabels - nlabels, NumLabels)
  }

  /** `std::max<int>(0, x)`, the clamp applied to the resize flags. */
  function Clamp(x: int): (r: nat)
    ensures r >= x && (r == 0 || r == x)
  {
    if x < 0 then 0 else x
  }

  /** Builds the whitelist by inserting `label_popularity[i]` for `i` from
      `81 - nlabels` up to 80; `nlabels` above 81 would read before the
      table. */
  method BuildLabelSet(nlabels: int) returns (labelset: set<int>)
    requires nlabels <= NumLabels
    ensures labelset == LabelSet(nlabels)
  {
    labelset := {};
    var i := NumLabels - nlabels;
    while i < NumLabels
      invariant NumLabels - nlabels <= i
      invariant i <= NumLabels || i == NumLabels - nlabels
      invariant labelset == Popular(NumLabels - nlabels, i)
    {
      assert Popular(NumLabels - nlabels, i + 1) == Popular(NumLabels - nlabels, i) + {LabelPopularity[i]};
      labelset := labelset + {LabelPopularity[i]};
      i := i + 1;
    }
  }

  /** A whitelist of `nlabels <= 0` labels is empty, and each further
      label can only add to it. */
  lemma LabelSetGrows(m: int, n: int)
    requires m <= n <= NumLabels
    ensures LabelSet(m) <= LabelSet(n)
    ensures m <= 0 ==> LabelSet(m) == {}
  {
    if m <= 0 {
      assert forall l | l in LabelSet(m) :: false;
    }
  }

  // ---------------------------------------------------------------- parsing

  /** The result of scanning label tokens: the retained (whitelisted)
      labels in order and the position of the `$$` token, a line without
      `$$`, or a token `lexical_cast<int>` rejects. */
  datatype LabelScan = Labels(retained: seq<int>, end: nat) | NoLabelEnd | Unparsable(token: string)

  /** Scans the tokens from position `k` up to the first `$$`. */
  function ScanLabels(tokens: seq<string>, k: nat, labelset: set<int>, parse: string -> Option<int>): (r: LabelScan)
    decreases |tokens| - k
    ensures r.Labels? ==> (k <= r.end < |tokens| && tokens[r.end] == LabelEnd
      && (forall j | k <= j < r.end :: tokens[j] != LabelEnd && parse(tokens[j]).Some?)
      && (forall l | l in r.retained :: l in labelset)
      && |r.retained| <= r.end - k)
    ensures r.NoLabelEnd? ==> forall j | k <= j < |tokens| :: tokens[j] != LabelEnd && parse(tokens[j]).Some?
    ensures r.Unparsable? ==> exists j | k <= j < |tokens| :: (tokens[j] == r.token && tokens[j] != LabelEnd
      && parse(tokens[j]).None? && forall m | k <= m < j :: tokens[m] != LabelEnd && parse(tokens[m]).Some?)
  {
    if k >= |tokens| then NoLabelEnd
    else if tokens[k] == LabelEnd then Labels([], k)
    else match parse(tokens[k])
      case None => Unparsable(tokens[k])
      case Some(l) =>
        var rest := ScanLabels(tokens, k + 1, labelset, parse);
        if rest.Labels? && l in labelset then Labels([l] + rest.retained, rest.end) else rest
  }

  /** The retained labels are exactly the whitelisted ids of the tokens
      before the `$$`. */
  lemma {:induction false} RetainedLabels(tokens: seq<string>, k: nat, labelset: set<int>, parse: string -> Option<int>, l: int)
    requires ScanLabels(tokens, k, labelset, parse).Labels?
    ensures var scan := ScanLabels(tokens, k, labelset, parse);
      l in scan.retained <==> exists j | k <= j < scan.end :: parse(tokens[j]) == Some(l) && l in labelset
    decreases |tokens| - k
  {
    var scan := ScanLabels(tokens, k, labelset, parse);
    if tokens[k] != LabelEnd {
      var rest := ScanLabels(tokens, k + 1, labelset, parse);
      RetainedLabels(tokens, k + 1, labelset, parse, l);
      assert rest.end == scan.end;
      if l in scan.retained && parse(tokens[k]) != Some(l) {
        var j :| k + 1 <= j < rest.end && parse(tokens[j]) == Some(l) && l in labelset;
      }
    }
  }

  /** The whitelisted ids among tokens `k .. end - 1`, in token order and
      with repetitions. */
  function Whitelisted(tokens: seq<string>, k: nat, end: nat, labelset: set<int>, parse: string -> Option<int>): seq<int>
    requires end <= |tokens|
    decreases end - k
  {
    if k >= end then []
    else match parse(tokens[k])
      case Some(l) => (if l in labelset then [l] else []) + Whitelisted(tokens, k + 1, end, labelset, parse)
      case None => Whitelisted(tokens, k + 1, end, labelset, parse)
  }

  /** The retained labels are the whitelisted ids of the tokens before
      the `$$`, in order and with repetitions. */
  lemma {:induction false} RetainedInOrder(tokens: seq<string>, k: nat, labelset: set<int>, parse: string -> Option<int>)
    requires ScanLabels(tokens, k, labelset, parse).Labels?
    ensures var scan := ScanLabels(tokens, k, labelset, parse);
      scan.retained == Whitelisted(tokens, k, scan.end, labelset, parse)
    decreases |tokens| - k
  {
    if tokens[k] != LabelEnd {
      RetainedInOrder(tokens, k + 1, labelset, parse);
    }
  }

  /** `scan` with `acc` put in front of its retained labels. */
  function Prepend(acc: seq<int>, scan: LabelScan): LabelScan {
    if scan.Labels? then Labels(acc + scan.retained, scan.end) else scan
  }

  /** The label loop: reads label tokens from position 2 while the token
      is not `$$`, keeping the whitelisted ones. */
  method ParseLabels(tokens: seq<string>, labelset: set<int>, parse: string -> Option<int>) returns (scan: LabelScan)
    ensures scan == ScanLabels(tokens, 2, labelset, parse)
  {
    var retained: seq<int> := [];
    var k := 2;
    if |tokens| < k {
      return NoLabelEnd;
    }
    while k < |tokens| && tokens[k] != LabelEnd
      invariant 2 <= k <= |tokens|
      invariant ScanLabels(tokens, 2, labelset, parse) == Prepend(retained, ScanLabels(tokens, k, labelset, parse))
      decreases |tokens| - k
    {
      var id := parse(tokens[k]);
      if id.None? {
        return Unparsable(tokens[k]);
      }
      ghost var rest := ScanLabels(tokens, k + 1, labelset, parse);
      if id.value in labelset {
        assert rest.Labels? ==> retained + ([id.value] + rest.retained) == (retained + [id.value]) + rest.retained;
        retained := retained + [id.value];
      }
      k := k + 1;
    }
    if k == |tokens| {
      return NoLabelEnd;
    }
    return Labels(retained, k);
  }

  /** The first text token from position `k` on that `lexical_cast<float>`
      rejects. */
  function FirstBadText(tokens: seq<string>, k: nat, parse: string -> bool): (r: Option<nat>)
    decreases |tokens| - k
    ensures r.Some? ==> (k <= r.value < |tokens| && !parse(tokens[r.value])
      && forall j | k <= j < r.value :: parse(tokens[j]))
    ensures r.None? ==> forall j | k <= j < |tokens| :: parse(tokens[j])
  {
    if k >= |tokens| then None
    else if !parse(tokens[k]) then Some(k)
    else FirstBadText(tokens, k + 1, parse)
  }

  /** The text loop: converts every token from `from` on, and answers how
      many there were or the first one that does not convert. */
  method ReadText(tokens: seq<string>, from: nat, parse: string -> bool) returns (textSize: nat, bad: Option<nat>)
    requires from <= |tokens|
    ensures bad == FirstBadText(tokens, from, parse)
    ensures bad.None? ==> textSize == |tokens| - from
  {
    var k := from;
    textSize := 0;
    while k < |tokens|
      invariant from <= k <= |tokens| && textSize == k - from
      invariant FirstBadText(tokens, from, parse) == FirstBadText(tokens, k, parse)
    {
      if !parse(tokens[k]) {
        return textSize, Some(k);
      }
      textSize := textSize + 1;
      k := k + 1;
    }
    bad := None;
  }

  // ---------------------------------------------------------------- one line

  /** The events of one line: nothing, or a write followed by a commit
      exactly when it brings the count to a multiple of 1000. */
  predicate Batched(after: Counters, events: seq<Event>) {
    events == []
    || (1 <= |events| <= 2 && events[0].Put?
       && (|events| == 2 <==> after.count % CommitInterval == 0)
       && (|events| == 2 ==> events[1] == Commit))
  }

  /** A line stops the run exactly when its write brings the count to a
      positive `size`. */
  predicate SizeLimit(s: Setup, c: Counters, r: LineStep) {
    (r.Stop? ==> r.events != [] && s.flags.size > 0 && r.after.count >= s.flags.size)
    && (r.Next? && r.events != [] ==> s.flags.size <= 0 || r.after.count < s.flags.size)
  }

  /** Whether a line survives the label filter and gets a line id. */
  predicate Numbered(s: Setup, tokens: seq<string>) {
    var scan := ScanLabels(tokens, 2, s.labelset, s.io.parseLabel);
    scan.Labels? && |scan.retained| > 0 && (s.flags.maxLabels <= 0 || |scan.retained| <= s.flags.maxLabels)
  }

  /** The scan of a line's label tokens, from position 2. */
  function Scan(s: Setup, tokens: seq<string>): LabelScan {
    ScanLabels(tokens, 2, s.labelset, s.io.parseLabel)
  }

  /** A numbered line past `start` outside count mode, with `lineId` the
      id it would get: the lines the loop goes on to write. */
  predicate Qualifies(s: Setup, tokens: seq<string>, lineId: int) {
    Numbered(s, tokens) && !s.flags.countOnly && s.flags.start <= lineId
  }

  /** Every text token after the `$$` at `end` converts and there are
      `text_dim` of them. */
  predicate TextFits(s: Setup, tokens: seq<string>, end: nat)
    requires end < |tokens|
  {
    FirstBadText(tokens, end + 1, s.io.parseFloat).None? && |tokens| - (end + 1) == s.flags.textDim
  }

  /** `ReadImageToDatum` on the image at `path` below the root folder. */
  function ImageOf(s: Setup, path: string): Option<Image> {
    s.io.readImage(s.root + "/" + path, s.height, s.width, s.isColor)
  }

  /** The image's data agrees with the size set by the first image, if any. */
  predicate SizeFits(c: Counters, image: Image) {
    c.dataSize.None? || image.dataBytes == c.dataSize.value
  }

  /** What the loop body does with line number `line` holding `tokens`. */
  function HandleLine(s: Setup, c: Counters, tokens: seq<string>, line: nat): (r: LineStep)
    requires c.lineId >= -1
    ensures !r.Fail? ==> r.after.lineId == c.lineId + (if Numbered(s, tokens) then 1 else 0)
    ensures !r.Fail? ==> r.after.count == c.count + (if r.events == [] then 0 else 1)
    ensures !r.Fail? && r.events != [] ==> (Numbered(s, tokens) && !s.flags.countOnly
      && s.flags.start <= r.after.lineId
      && r.events[0] == Put(Key(r.after.lineId, tokens[1]), Scan(s, tokens).retained))
    ensures !r.Fail? && r.events != [] ==>
      |tokens| - (Scan(s, tokens).end + 1) == s.flags.textDim
    ensures !r.Fail? ==> Batched(r.after, r.events)
    ensures SizeLimit(s, c, r)
    ensures (Qualifies(s, tokens, c.lineId + 1) && TextFits(s, tokens, Scan(s, tokens).end)
             && ImageOf(s, tokens[1]).Some? && SizeFits(c, ImageOf(s, tokens[1]).value)) ==>
      !r.Fail? && r.events != [] && r.events[0] == Put(Key(c.lineId + 1, tokens[1]), Scan(s, tokens).retained)
    ensures Qualifies(s, tokens, c.lineId + 1) && !r.Fail? ==> (r.events != [] <==> ImageOf(s, tokens[1]).Some?)
    ensures Scan(s, tokens).NoLabelEnd? ==> r == Fail(MissingLabelEnd(line))
    ensures Scan(s, tokens).Unparsable? ==> r == Fail(BadLabel(line, Scan(s, tokens).token))
    ensures Scan(s, tokens).Labels? && !Numbered(s, tokens) ==> r == Next(c, [])
  {
    match Scan(s, tokens)
    case NoLabelEnd => Fail(MissingLabelEnd(line))
    case Unparsable(t) => Fail(BadLabel(line, t))
    case Labels(labels, end) =>
      if (s.flags.maxLabels > 0 && |labels| > s.flags.maxLabels) || |labels| == 0 then Next(c, [])
      else
        var numbered := c.(lineId := c.lineId + 1);
        if numbered.lineId < s.flags.start || s.flags.countOnly then Next(numbered, [])
        else StoreRecord(s, numbered, tokens, line, labels, end)
  }

  /** The rest of the loop body for a numbered record that is not
      skipped: the text check, the image read, the data size check, the
      write, the commit of a full batch and the `size` limit. */
  function StoreRecord(s: Setup, c: Counters, tokens: seq<string>, line: nat, labels: seq<int>, end: nat): (r: LineStep)
    requires c.lineId >= 0 && 2 <= end < |tokens|
    ensures !r.Fail? ==> r.after.lineId == c.lineId
    ensures !r.Fail? ==> r.events == [] || r.events[0] == Put(Key(c.lineId, tokens[1]), labels)
    ensures !r.Fail? ==> r.after.count == c.count + (if r.events == [] then 0 else 1)
    ensures !r.Fail? && r.events != [] ==> |tokens| - (end + 1) == s.flags.textDim
    ensures FirstBadText(tokens, end + 1, s.io.parseFloat).None? ==>
      ((r.Fail? && r.why == TextDimMismatch(c.lineId, |tokens| - (end + 1))) <==> |tokens| - (end + 1) != s.flags.textDim)
    ensures !r.Fail? ==> Batched(r.after, r.events)
    ensures SizeLimit(s, c, r)
    ensures FirstBadText(tokens, end + 1, s.io.parseFloat).Some? ==>
      r == Fail(BadText(line, tokens[FirstBadText(tokens, end + 1, s.io.parseFloat).value]))
    ensures TextFits(s, tokens, end) && ImageOf(s, tokens[1]).None? ==> r == Next(c, [])
    ensures TextFits(s, tokens, end) && ImageOf(s, tokens[1]).Some? ==>
      (r.Fail? <==> !SizeFits(c, ImageOf(s, tokens[1]).value)) && (!r.Fail? ==> r.events != [])
  {
    match FirstBadText(tokens, end + 1, s.io.parseFloat)
    case Some(b) => Fail(BadText(line, tokens[b]))
    case None =>
      var textSize := |tokens| - (end + 1);
      if textSize != s.flags.textDim then Fail(TextDimMismatch(c.lineId, textSize))
      else match ImageOf(s, tokens[1])
        case None => Next(c, [])
        case Some(image) => PutRecord(s, c, tokens[1], labels, image)
  }

  /** A read image: the data size check, the write, the commit of a full
      batch and the `size` limit. */
  function PutRecord(s: Setup, c: Counters, path: string, labels: seq<int>, image: Image): (r: LineStep)
    requires c.lineId >= 0
    ensures !r.Fail? ==> r.after.lineId == c.lineId && r.after.count == c.count + 1
    ensures !r.Fail? ==> r.events != [] && r.events[0] == Put(Key(c.lineId, path), labels)
    ensures r.Fail? <==> c.dataSize.Some? && image.dataBytes != c.dataSize.value
    ensures r.Fail? ==> r.why == DataSizeMismatch(c.lineId, image.dataBytes)
    ensures !r.Fail? ==>
      r.after.dataSize == (if c.dataSize.None? then Some(Volume(image)) else c.dataSize)
    ensures !r.Fail? ==> Batched(r.after, r.events)
    ensures SizeLimit(s, c, r)
  {
    if c.dataSize.Some? && image.dataBytes != c.dataSize.value then
      Fail(DataSizeMismatch(c.lineId, image.dataBytes))
    else
      var dataSize := if c.dataSize.None? then Some(Volume(image))
                      else c.dataSize;
      var count := c.count + 1;
      var events := [Put(Key(c.lineId, path), labels)]
                    + (if count % CommitInterval == 0 then [Commit] else []);
      var after := Counters(c.lineId, count, dataSize);
      if count >= s.flags.size && s.flags.size > 0 then Stop(after, events) else Next(after, events)
  }

  /** The loop body: parse, filter and number the line. */
  method ProcessLine(s: Setup, c: Counters, tokens: seq<string>, line: nat) returns (step: LineStep)
    requires c.lineId >= -1
    ensures step == HandleLine(s, c, tokens, line)
  {
    var scan := ParseLabels(tokens, s.labelset, s.io.parseLabel);
    if scan.NoLabelEnd? {
      return Fail(MissingLabelEnd(line));
    } else if scan.Unparsable? {
      return Fail(BadLabel(line, scan.token));
    }
    var labels := scan.retained;
    if (s.flags.maxLabels > 0 && |labels| > s.flags.maxLabels) || |labels| == 0 {
      return Next(c, []);
    }
    var lineId := c.lineId + 1;
    if lineId < s.flags.start || s.flags.countOnly {
      return Next(c.(lineId := lineId), []);
    }
    step := WriteRecord(s, c.(lineId := lineId), tokens, line, labels, scan.end);
  }

  /** Reads the text vector and the image and writes the record. */
  method WriteRecord(s: Setup, c: Counters, tokens: seq<string>, line: nat, labels: seq<int>, end: nat)
    returns (step: LineStep)
    requires c.lineId >= 0 && 2 <= end < |tokens|
    ensures step == StoreRecord(s, c, tokens, line, labels, end)
  {
    var textSize, bad := ReadText(tokens, end + 1, s.io.parseFloat);
    if bad.Some? {
      return Fail(BadText(line, tokens[bad.value]));
    }
    if textSize != s.flags.textDim {
      return Fail(TextDimMismatch(c.lineId, textSize));
    }
    var image := s.io.readImage(s.root + "/" + tokens[1], s.height, s.width, s.isColor);
    if image.None? {
      return Next(c, []);
    }
    step := CommitRecord(s, c, tokens[1], labels, image.value);
  }

  /** Checks the data size, writes the record and commits a full batch. */
  method CommitRecord(s: Setup, c: Counters, path: string, labels: seq<int>, image: Image) returns (step: LineStep)
    requires c.lineId >= 0
    ensures step == PutRecord(s, c, path, labels, image)
  {
    var dataSize := c.dataSize;
    if dataSize.None? {
      dataSize := Some(Volume(image));
    } else if image.dataBytes != dataSize.value {
      return Fail(DataSizeMismatch(c.lineId, image.dataBytes));
    }
    var events := [Put(Key(c.lineId, path), labels)];
    var count := c.count + 1;
    if count % CommitInterval == 0 {
      events := events + [Commit];
    }
    if count >= s.flags.size && s.flags.size > 0 {
      return Stop(Counters(c.lineId, count, dataSize), events);
    }
    return Next(Counters(c.lineId, count, dataSize), events);
  }

  // ---------------------------------------------------------------- the run

  /** After the loop: commit the last partial batch and report
      `line_id + 1`. */
  function Finish(c: Counters, events: seq<Event>): Run {
    Run(events + (if c.count % CommitInterval != 0 then [Commit] else []), Finished(c.lineId + 1))
  }

  /** The run from line `i` on, with counters `c` and written `events`. */
  function RunFrom(s: Setup, lines: seq<seq<string>>, i: nat, c: Counters, events: seq<Event>): Run
    requires i <= |lines| && c.lineId >= -1
    decreases |lines| - i
  {
    if i == |lines| then Finish(c, events)
    else match HandleLine(s, c, lines[i], i)
      case Fail(why) => Run(events, Aborted(why))
      case Stop(after, ev) => Finish(after, events + ev)
      case Next(after, ev) => RunFrom(s, lines, i + 1, after, events + ev)
  }

  /** One line of the run, by the way it ends. */
  lemma RunFromStep(s: Setup, lines: seq<seq<string>>, i: nat, c: Counters, events: seq<Event>)
    requires i < |lines| && c.lineId >= -1
    ensures var step := HandleLine(s, c, lines[i], i);
      RunFrom(s, lines, i, c, events)
      == match step
         case Fail(why) => Run(events, Aborted(why))
         case Stop(after, ev) => Finish(after, events + ev)
         case Next(after, ev) => RunFrom(s, lines, i + 1, after, events + ev)
  {
  }

  /** The shared state the tool sets up before its loop. */
  function MakeSetup(f: Flags, root: string, io: Io): Setup
    requires f.nlabels <= NumLabels
  {
    Setup(f, LabelSet(f.nlabels), Clamp(f.resizeHeight), Clamp(f.resizeWidth), !f.gray, root, io)
  }

  /** The whole record loop over the token lists of the input's lines. */
  function Convert(f: Flags, root: string, io: Io, lines: seq<seq<string>>): Run
    requires f.nlabels <= NumLabels
  {
    RunFrom(MakeSetup(f, root, io), lines, 0, Counters(-1, 0, None), [])
  }

  /** The tool's `main` from building the whitelist to the last commit. */
  method ConvertRecords(f: Flags, root: string, io: Io, lines: seq<seq<string>>)
    returns (events: seq<Event>, outcome: Outcome)
    requires f.nlabels <= NumLabels
    ensures Run(events, outcome) == Convert(f, root, io, lines)
  {
    var labelset := BuildLabelSet(f.nlabels);
    var resizeHeight := Clamp(f.resizeHeight);
    var resizeWidth := Clamp(f.resizeWidth);
    var s := Setup(f, labelset, resizeHeight, resizeWidth, !f.gray, root, io);
    events, outcome := RecordLoop(s, lines);
  }

  /** The `while` loop over the lines and the final commit. */
  method RecordLoop(s: Setup, lines: seq<seq<string>>) returns (events: seq<Event>, outcome: Outcome)
    ensures Run(events, outcome) == RunFrom(s, lines, 0, Counters(-1, 0, None), [])
  {
    var c := Counters(-1, 0, None);
    events := [];
    ghost var run := RunFrom(s, lines, 0, c, events);
    var i := 0;
    while i < |lines|
      invariant i <= |lines| && c.lineId >= -1
      invariant RunFrom(s, lines, i, c, events) == run
    {
      var step := ProcessLine(s, c, lines[i], i);
      RunFromStep(s, lines, i, c, events);
      if step.Fail? {
        outcome := Aborted(step.why);
        return;
      }
      events := events + step.events;
      c := step.after;
      if step.Stop? {
        assert Finish(c, events) == run;
        break;
      }
      i := i + 1;
    }
    assert Finish(c, events) == run;
    events, outcome := CommitLast(c, events);
  }

  /** After the loop: commits the last partial batch and reports the
      number of line ids handed out. */
  method CommitLast(c: Counters, t: seq<Event>) returns (events: seq<Event>, outcome: Outcome)
    ensures Run(events, outcome) == Finish(c, t)
  {
    events := t;
    if c.count % CommitInterval != 0 {
      events := events + [Commit];
    }
    outcome := Finished(c.lineId + 1);
  }
}
