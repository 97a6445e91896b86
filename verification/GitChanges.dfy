/** Parses the combined `git diff --raw --numstat -z` stream, already decoded to characters. */
module GitChangesSpec {
  import opened Collections
  import opened Protocol

  datatype Change = Change(oldPath: Option<string>, newPath: Option<string>, oldOid: Option<string>, newOid: Option<string>)

  datatype Counts = Counts(added: Option<nat>, removed: Option<nat>)

  datatype Failure =
    | UnterminatedStream | UnexpectedRaw | MissingDestination | UnexpectedNumstat | OutOfRange | MissingRenamePath | MissingNumstat

  datatype Parsed<T> = Good(value: T) | Bad(failure: Failure)

  const MAX_SAFE_INTEGER := 9007199254740991

  // ── Fields ────────────────────────────────────────────────────────────────

  function SplitOn(s: string, c: char): (parts: seq<string>)
    ensures |parts| >= 1
  {
    if s == "" then [""]
    else
      var rest := SplitOn(s[1..], c);
      if s[0] == c then [""] + rest else [[s[0]] + rest[0]] + rest[1..]
  }

  function At<T>(s: seq<T>, i: nat): Option<T> {
    if i < |s| then Some(s[i]) else None
  }

  /** Neither undefined nor empty. */
  predicate Truthy(s: Option<string>) {
    s.Some? && s.value != ""
  }

  predicate Regular(mode: string) {
    |mode| == 6 && mode[..3] == "100" && forall i :: 3 <= i < 6 ==> '0' <= mode[i] <= '7'
  }

  predicate LowerHex(c: char) {
    '0' <= c <= '9' || 'a' <= c <= 'f'
  }

  predicate ValidOid(oid: string) {
    (|oid| == 40 || |oid| == 64) && forall i :: 0 <= i < |oid| ==> LowerHex(oid[i])
  }

  function BlobOid(mode: string, oid: Option<string>): Option<string> {
    if Regular(mode) && oid.Some? && ValidOid(oid.value) && (exists i :: 0 <= i < |oid.value| && oid.value[i] != '0') then oid
    else None
  }

  predicate Digits(s: string) {
    s != "" && forall i :: 0 <= i < |s| ==> '0' <= s[i] <= '9'
  }

  function Value(s: string): nat
    requires forall i :: 0 <= i < |s| ==> '0' <= s[i] <= '9'
  {
    if s == "" then 0 else 10 * Value(s[..|s| - 1]) + (s[|s| - 1] as int - '0' as int)
  }

  function NumberField(s: string): Parsed<Option<nat>> {
    if s == "-" then Good(None)
    else if !Digits(s) then Bad(UnexpectedNumstat)
    else if Value(s) > MAX_SAFE_INTEGER then Bad(OutOfRange)
    else Good(Some(Value(s)))
  }

  // ── The record loop ───────────────────────────────────────────────────────

  datatype Progress = Progress(changes: seq<Change>, stats: map<string, Counts>)

  /** The change a raw record of this status stands for; None for one between irregular files, which is passed over. */
  function ChangeOf(status: char, oldMode: string, newMode: string, oldOid: Option<string>, newOid: Option<string>,
                    first: string, second: Option<string>): Option<Change> {
    if (oldMode != "000000" && !Regular(oldMode)) || (newMode != "000000" && !Regular(newMode)) then None
    else if status == 'A' then Some(Change(None, Some(first), None, BlobOid(newMode, newOid)))
    else if status == 'D' then Some(Change(Some(first), None, BlobOid(oldMode, oldOid), None))
    else if status == 'M' then Some(Change(Some(first), Some(first), BlobOid(oldMode, oldOid), BlobOid(newMode, newOid)))
    else Some(Change(Some(first), second, BlobOid(oldMode, oldOid), BlobOid(newMode, newOid)))
  }

  function Extended(p: Progress, change: Option<Change>): Progress {
    if change.Some? then p.(changes := p.changes + [change.value]) else p
  }

  /** One raw record: its field line, a path, and for a rename a second path. Gives what is left of the segments. */
  function RawRecord(rest: seq<string>, p: Progress): Parsed<(seq<string>, Progress)>
    requires rest != [] && rest[0] != ""
  {
    var fields := SplitOn(rest[0][1..], ' ');
    var status := At(fields, 4);
    var first := At(rest, 1);
    if !Truthy(first) || !Truthy(At(fields, 0)) || !Truthy(At(fields, 1)) || !Truthy(status) || status.value[0] !in "ADMR"
    then Bad(UnexpectedRaw)
    else if status.value[0] == 'R' && !Truthy(At(rest, 2)) then Bad(MissingDestination)
    else
      var second := if status.value[0] == 'R' then At(rest, 2) else None;
      var change := ChangeOf(status.value[0], fields[0], fields[1], At(fields, 2), At(fields, 3), first.value, second);
      Good((rest[if second.Some? then 3 else 2..], Extended(p, change)))
  }

  /** One numstat record; an empty inline path announces a rename's two paths. */
  function NumstatRecord(rest: seq<string>, p: Progress): Parsed<(seq<string>, Progress)>
    requires rest != []
  {
    var line := rest[0];
    var tab := FirstIndexOf(line, '\t');
    if tab.None? then Bad(UnexpectedNumstat)
    else
      var after := line[tab.value + 1..];
      var tab2 := FirstIndexOf(after, '\t');
      if tab2.None? then Bad(UnexpectedNumstat)
      else
        var inline := after[tab2.value + 1..];
        if inline == "" && (!Truthy(At(rest, 1)) || !Truthy(At(rest, 2))) then Bad(MissingRenamePath)
        else
          match NumberField(line[..tab.value])
          case Bad(failure) => Bad(failure)
          case Good(added) =>
            match NumberField(after[..tab2.value])
            case Bad(failure) => Bad(failure)
            case Good(removed) =>
              var counts := Counts(added, removed);
              if inline != "" then Good((rest[1..], p.(stats := p.stats[inline := counts])))
              else Good((rest[3..], p.(stats := p.stats[rest[2] := counts])))
  }

  function Record(rest: seq<string>, p: Progress): (r: Parsed<(seq<string>, Progress)>)
    requires rest != []
    ensures r.Good? ==> |r.value.0| < |rest|
  {
    if rest[0] == "" then Good((rest[1..], p))
    else if rest[0][0] == ':' then RawRecord(rest, p)
    else NumstatRecord(rest, p)
  }

  function Records(rest: seq<string>, p: Progress): Parsed<Progress>
    decreases |rest|
  {
    if rest == [] then Good(p)
    else match Record(rest, p)
         case Bad(failure) => Bad(failure)
         case Good(next) => Records(next.0, next.1)
  }

  function ResultPath(c: Change): string {
    if c.newPath.Some? then c.newPath.value else if c.oldPath.Some? then c.oldPath.value else ""
  }

  function WithCounts(changes: seq<Change>, stats: map<string, Counts>): Parsed<seq<(Change, Counts)>> {
    if changes == [] then Good([])
    else if ResultPath(changes[0]) !in stats then Bad(MissingNumstat)
    else match WithCounts(changes[1..], stats)
         case Bad(failure) => Bad(failure)
         case Good(others) => Good([(changes[0], stats[ResultPath(changes[0])])] + others)
  }

  function Parse(output: string): Parsed<seq<(Change, Counts)>> {
    if output == "" then Good([])
    else if output[|output| - 1] != '\0' then Bad(UnterminatedStream)
    else match Records(SplitOn(output, '\0'), Progress([], map[]))
         case Bad(failure) => Bad(failure)
         case Good(p) => WithCounts(p.changes, p.stats)
  }

  // ── The stream as git prints it ───────────────────────────────────────────

  datatype Status = Added | Deleted | Modified | Renamed(score: string, destination: string)

  datatype Diff = Diff(status: Status, oldMode: string, newMode: string, oldOid: string, newOid: string, path: string, counts: Counts)

  function Letter(s: Status): char {
    match s case Added => 'A' case Deleted => 'D' case Modified => 'M' case Renamed(_, _) => 'R'
  }

  function Destination(d: Diff): Option<string> {
    if d.status.Renamed? then Some(d.status.destination) else None
  }

  function Decimal(n: nat): (s: string)
    ensures Digits(s)
  {
    if n < 10 then [(48 + n) as char] else Decimal(n / 10) + [(48 + n % 10) as char]
  }

  function Count(n: Option<nat>): string {
    if n.Some? then Decimal(n.value) else "-"
  }

  function FieldLine(d: Diff): string {
    ":" + (d.oldMode + " " + (d.newMode + " " + (d.oldOid + " " + (d.newOid + " " + LastField(d)))))
  }

  function LastField(d: Diff): string {
    [Letter(d.status)] + if d.status.Renamed? then d.status.score else ""
  }

  function Raw(d: Diff): seq<string> {
    [FieldLine(d), d.path] + if d.status.Renamed? then [d.status.destination] else []
  }

  function Numstat(d: Diff): seq<string> {
    var line := Count(d.counts.added) + "\t" + Count(d.counts.removed) + "\t";
    if d.status.Renamed? then [line, d.path, d.status.destination] else [line + d.path]
  }

  function AllRaw(ds: seq<Diff>): seq<string> {
    if ds == [] then [] else Raw(ds[0]) + AllRaw(ds[1..])
  }

  function AllNumstat(ds: seq<Diff>): seq<string> {
    if ds == [] then [] else Numstat(ds[0]) + AllNumstat(ds[1..])
  }

  /** Every segment is followed by a NUL. */
  function Terminated(segments: seq<string>): string {
    if segments == [] then "" else segments[0] + "\0" + Terminated(segments[1..])
  }

  function Print(ds: seq<Diff>): string {
    Terminated(AllRaw(ds) + AllNumstat(ds))
  }

  predicate Field(s: string) {
    s != "" && '\0' !in s && ' ' !in s
  }

  predicate Path(s: string) {
    s != "" && '\0' !in s
  }

  predicate Safe(n: Option<nat>) {
    n.Some? ==> n.value <= MAX_SAFE_INTEGER
  }

  /** What git prints: fields without blanks, non-empty paths without NULs (tabs and leading colons are allowed). */
  predicate Printable(d: Diff) {
    && Field(d.oldMode) && Field(d.newMode) && Field(d.oldOid) && Field(d.newOid) && Path(d.path)
    && (d.status.Renamed? ==> Path(d.status.destination) && '\0' !in d.status.score && ' ' !in d.status.score)
    && Safe(d.counts.added) && Safe(d.counts.removed)
  }

  /** The path on the old side of a record; a file that was added has none. */
  function OldPath(d: Diff): Option<string> {
    match d.status case Added => None case _ => Some(d.path)
  }

  /** The path on the new side; a file that was deleted has none, and one that was renamed has the one it was renamed to. */
  function NewPath(d: Diff): Option<string> {
    match d.status case Added => Some(d.path) case Deleted => None case Modified => Some(d.path) case Renamed(_, destination) => Some(destination)
  }

  /** The blob of a side that is a regular file whose id is known: not all zeros, as git prints for unhashed content. */
  function Blob(mode: string, oid: string): Option<string> {
    if Regular(mode) && ValidOid(oid) && !(forall i :: 0 <= i < |oid| ==> oid[i] == '0') then Some(oid) else None
  }

  predicate RegularOrAbsent(mode: string) {
    mode == "000000" || Regular(mode)
  }

  /** What a printed record means: nothing unless each side is a regular file or absent; otherwise its two sides. */
  function Meaning(d: Diff): Option<Change> {
    if !RegularOrAbsent(d.oldMode) || !RegularOrAbsent(d.newMode) then None
    else Some(Change(OldPath(d), NewPath(d),
                     if OldPath(d).Some? then Blob(d.oldMode, d.oldOid) else None,
                     if NewPath(d).Some? then Blob(d.newMode, d.newOid) else None))
  }

  function Meanings(ds: seq<Diff>): seq<(Change, Counts)> {
    if ds == [] then []
    else if Meaning(ds[0]).Some? then [(Meaning(ds[0]).value, ds[0].counts)] + Meanings(ds[1..])
    else Meanings(ds[1..])
  }

  /** The path a record's counts are filed under. */
  function Key(d: Diff): string {
    if d.status.Renamed? then d.status.destination else d.path
  }

  function LastCounts(ds: seq<Diff>, key: string): Option<Counts> {
    if ds == [] then None
    else if Key(ds[|ds| - 1]) == key then Some(ds[|ds| - 1].counts)
    else LastCounts(ds[..|ds| - 1], key)
  }

  /** The last record with a given result path carries the counts of every regular one with that path. */
  predicate CountsAgree(ds: seq<Diff>) {
    forall i :: 0 <= i < |ds| && Meaning(ds[i]).Some? ==> LastCounts(ds, Key(ds[i])) == Some(ds[i].counts)
  }

  predicate DistinctKeys(ds: seq<Diff>) {
    forall i, j :: 0 <= i < j < |ds| ==> Key(ds[i]) != Key(ds[j])
  }

  // ── Parsing undoes printing ───────────────────────────────────────────────

  lemma {:induction false} SplitAtFirst(a: string, c: char, b: string)
    requires c !in a
    ensures SplitOn(a + [c] + b, c) == [a] + SplitOn(b, c)
    decreases |a|
  {
    var s := a + [c] + b;
    if a == "" {
      assert s[1..] == b;
    } else {
      SplitAtFirst(a[1..], c, b);
      assert s[1..] == a[1..] + [c] + b;
      assert a == [a[0]] + a[1..];
    }
  }

  lemma {:induction false} SplitNothing(a: string, c: char)
    requires c !in a
    ensures SplitOn(a, c) == [a]
    decreases |a|
  {
    if a != "" {
      SplitNothing(a[1..], c);
      assert a == [a[0]] + a[1..];
    }
  }

  lemma {:induction false} SplitTerminated(segments: seq<string>)
    requires forall i :: 0 <= i < |segments| ==> '\0' !in segments[i]
    ensures SplitOn(Terminated(segments), '\0') == segments + [""]
    decreases |segments|
  {
    if segments != [] {
      SplitTerminated(segments[1..]);
      SplitAtFirst(segments[0], '\0', Terminated(segments[1..]));
      assert segments == [segments[0]] + segments[1..];
    }
  }

  lemma {:induction false} ValueOfDecimal(n: nat)
    ensures Value(Decimal(n)) == n
    decreases n
  {
    if n >= 10 {
      ValueOfDecimal(n / 10);
      assert Decimal(n)[..|Decimal(n)| - 1] == Decimal(n / 10);
    } else {
      assert Decimal(n)[..0] == "";
    }
  }

  lemma NumberOfCount(n: Option<nat>)
    requires Safe(n)
    ensures NumberField(Count(n)) == Good(n) && '\t' !in Count(n) && '\0' !in Count(n) && ':' !in Count(n) && Count(n) != ""
  {
    if n.Some? {
      ValueOfDecimal(n.value);
      assert Decimal(n.value) != "-" by { assert Digits(Decimal(n.value)); }
    }
  }

  lemma SplitFive(a: string, b: string, c: string, d: string, e: string)
    requires ' ' !in a && ' ' !in b && ' ' !in c && ' ' !in d && ' ' !in e
    ensures SplitOn(a + " " + (b + " " + (c + " " + (d + " " + e))), ' ') == [a, b, c, d, e]
  {
    SplitNothing(e, ' ');
    SplitAtFirst(d, ' ', e);
    SplitAtFirst(c, ' ', d + " " + e);
    SplitAtFirst(b, ' ', c + " " + (d + " " + e));
    SplitAtFirst(a, ' ', b + " " + (c + " " + (d + " " + e)));
  }

  lemma DropColon(fields: string)
    ensures (":" + fields)[1..] == fields
  {
  }

  /** The five blank-separated fields of a raw record come back. */
  lemma FieldsComeBack(d: Diff)
    requires Printable(d)
    ensures SplitOn(FieldLine(d)[1..], ' ') == [d.oldMode, d.newMode, d.oldOid, d.newOid, LastField(d)]
  {
    SplitFive(d.oldMode, d.newMode, d.oldOid, d.newOid, LastField(d));
    DropColon(d.oldMode + " " + (d.newMode + " " + (d.oldOid + " " + (d.newOid + " " + LastField(d)))));
  }

  /** What the parser makes of a record's fields is what the record means. */
  lemma ChangeIsMeaning(d: Diff)
    ensures ChangeOf(Letter(d.status), d.oldMode, d.newMode, Some(d.oldOid), Some(d.newOid), d.path, Destination(d)) == Meaning(d)
  {
    assert BlobOid(d.oldMode, Some(d.oldOid)) == Blob(d.oldMode, d.oldOid);
    assert BlobOid(d.newMode, Some(d.newOid)) == Blob(d.newMode, d.newOid);
  }

  lemma RawComesBack(d: Diff, rest: seq<string>, p: Progress)
    requires Printable(d)
    ensures Record(Raw(d) + rest, p) == Good((rest, Extended(p, Meaning(d))))
  {
    FieldsComeBack(d);
    ChangeIsMeaning(d);
    var all := Raw(d) + rest;
    assert all[0] == FieldLine(d) && all[0][0] == ':' && all[1] == d.path;
    assert d.status.Renamed? ==> all[2] == d.status.destination && all[3..] == rest;
    assert !d.status.Renamed? ==> all[2..] == rest;
  }

  function Filed(p: Progress, d: Diff): Progress {
    p.(stats := p.stats[Key(d) := d.counts])
  }

  /** The two counts and the inline path of a numstat line come back. */
  lemma LineComesBack(added: string, removed: string, inline: string)
    requires '\t' !in added && '\t' !in removed
    ensures var line := added + "\t" + removed + "\t" + inline;
            && FirstIndexOf(line, '\t') == Some(|added|) && line[..|added|] == added
            && var after := line[|added| + 1..];
               && FirstIndexOf(after, '\t') == Some(|removed|) && after[..|removed|] == removed && after[|removed| + 1..] == inline
  {
    var line := added + "\t" + removed + "\t" + inline;
    var after := removed + "\t" + inline;
    assert line == added + "\t" + after;
    IndexAtFirst(added, '\t', after);
    IndexAtFirst(removed, '\t', inline);
    assert line[|added| + 1..] == after;
  }

  /** The path on the numstat line itself: a rename's two paths follow it instead. */
  function Inline(d: Diff): string {
    if d.status.Renamed? then "" else d.path
  }

  lemma NumstatLine(d: Diff)
    ensures Numstat(d) == [Count(d.counts.added) + "\t" + Count(d.counts.removed) + "\t" + Inline(d)]
                          + if d.status.Renamed? then [d.path, d.status.destination] else []
  {
    var line := Count(d.counts.added) + "\t" + Count(d.counts.removed) + "\t";
    assert line + "" == line;
  }

  lemma NumstatLineComesBack(d: Diff)
    requires Printable(d)
    ensures var line, a, b := Numstat(d)[0], |Count(d.counts.added)|, |Count(d.counts.removed)|;
            && line != "" && line[0] != ':'
            && FirstIndexOf(line, '\t') == Some(a) && NumberField(line[..a]) == Good(d.counts.added)
            && FirstIndexOf(line[a + 1..], '\t') == Some(b) && NumberField(line[a + 1..][..b]) == Good(d.counts.removed)
            && line[a + 1..][b + 1..] == Inline(d)
  {
    NumberOfCount(d.counts.added);
    NumberOfCount(d.counts.removed);
    NumstatLine(d);
    LineComesBack(Count(d.counts.added), Count(d.counts.removed), Inline(d));
    assert Numstat(d)[0][0] == Count(d.counts.added)[0];
  }

  lemma NumstatComesBack(d: Diff, rest: seq<string>, p: Progress)
    requires Printable(d)
    ensures Record(Numstat(d) + rest, p) == Good((rest, Filed(p, d)))
  {
    NumstatLineComesBack(d);
    NumstatLine(d);
    var all := Numstat(d) + rest;
    assert all[0] == Numstat(d)[0];
    assert d.status.Renamed? ==> all[1] == d.path && all[2] == d.status.destination && all[3..] == rest;
    assert !d.status.Renamed? ==> all[1..] == rest;
  }

  function Changes(ds: seq<Diff>): seq<Change> {
    if ds == [] then []
    else if Meaning(ds[0]).Some? then [Meaning(ds[0]).value] + Changes(ds[1..]) else Changes(ds[1..])
  }

  lemma RecordsStep(head: seq<string>, others: seq<string>, p: Progress, p1: Progress)
    requires head != [] && Record(head + others, p) == Good((others, p1))
    ensures Records(head + others, p) == Records(others, p1)
  {
  }

  lemma FirstRawComesBack(ds: seq<Diff>, rest: seq<string>, p: Progress)
    requires ds != [] && Printable(ds[0])
    ensures Records(AllRaw(ds) + rest, p) == Records(AllRaw(ds[1..]) + rest, Extended(p, Meaning(ds[0])))
  {
    var others := AllRaw(ds[1..]) + rest;
    assert AllRaw(ds) + rest == Raw(ds[0]) + others;
    RawComesBack(ds[0], others, p);
    RecordsStep(Raw(ds[0]), others, p, Extended(p, Meaning(ds[0])));
  }

  lemma ExtendedChanges(p: Progress, change: Option<Change>, others: seq<Change>)
    ensures Extended(p, change).stats == p.stats
    ensures Extended(p, change).changes + others == p.changes + if change.Some? then [change.value] + others else others
  {
  }

  lemma {:induction false} RawsComeBack(ds: seq<Diff>, rest: seq<string>, p: Progress)
    requires forall i :: 0 <= i < |ds| ==> Printable(ds[i])
    ensures Records(AllRaw(ds) + rest, p) == Records(rest, Progress(p.changes + Changes(ds), p.stats))
    decreases |ds|
  {
    if ds == [] {
      assert AllRaw(ds) + rest == rest && p.changes + Changes(ds) == p.changes;
    } else {
      FirstRawComesBack(ds, rest, p);
      ExtendedChanges(p, Meaning(ds[0]), Changes(ds[1..]));
      RawsComeBack(ds[1..], rest, Extended(p, Meaning(ds[0])));
    }
  }

  function FiledAll(p: Progress, ds: seq<Diff>): Progress
    decreases |ds|
  {
    if ds == [] then p else FiledAll(Filed(p, ds[0]), ds[1..])
  }

  lemma {:induction false} NumstatsComeBack(ds: seq<Diff>, p: Progress)
    requires forall i :: 0 <= i < |ds| ==> Printable(ds[i])
    ensures Records(AllNumstat(ds) + [""], p) == Good(FiledAll(p, ds))
    decreases |ds|
  {
    if ds == [] {
      assert AllNumstat(ds) + [""] == [""];
    } else {
      var others := AllNumstat(ds[1..]) + [""];
      assert AllNumstat(ds) + [""] == Numstat(ds[0]) + others;
      NumstatComesBack(ds[0], others, p);
      RecordsStep(Numstat(ds[0]), others, p, Filed(p, ds[0]));
      NumstatsComeBack(ds[1..], Filed(p, ds[0]));
    }
  }

  /** The counts kept for a path are those of the last record with that path. */
  lemma {:induction false} LastCountsKept(p: Progress, ds: seq<Diff>, key: string)
    ensures var q := FiledAll(p, ds);
            && q.changes == p.changes
            && (LastCounts(ds, key).Some? ==> key in q.stats && q.stats[key] == LastCounts(ds, key).value)
            && (LastCounts(ds, key).None? ==> (key in q.stats <==> key in p.stats) && (key in p.stats ==> q.stats[key] == p.stats[key]))
    decreases |ds|
  {
    if ds != [] {
      LastCountsKept(Filed(p, ds[0]), ds[1..], key);
      LastCountsTail(ds, key);
    }
  }

  lemma {:induction false} LastCountsTail(ds: seq<Diff>, key: string)
    requires ds != []
    ensures LastCounts(ds, key)
         == if LastCounts(ds[1..], key).Some? then LastCounts(ds[1..], key)
            else if Key(ds[0]) == key then Some(ds[0].counts) else None
    decreases |ds|
  {
    if |ds| > 1 {
      assert ds[1..][..|ds[1..]| - 1] == ds[..|ds| - 1][1..];
      LastCountsTail(ds[..|ds| - 1], key);
    } else {
      assert ds[..0] == [];
    }
  }

  /** Every regular record's path has counts; they are its own exactly when it agrees with the last such record. */
  lemma {:induction false} CountsJoined(ds: seq<Diff>, stats: map<string, Counts>)
    requires forall i :: 0 <= i < |ds| ==> Key(ds[i]) in stats
    ensures WithCounts(Changes(ds), stats).Good?
    ensures WithCounts(Changes(ds), stats) == Good(Meanings(ds))
       <==> (forall i :: 0 <= i < |ds| && Meaning(ds[i]).Some? ==> stats[Key(ds[i])] == ds[i].counts)
    decreases |ds|
  {
    if ds != [] {
      var others := ds[1..];
      assert forall i :: 0 <= i < |others| ==> others[i] == ds[i + 1];
      CountsJoined(others, stats);
      if Meaning(ds[0]).Some? {
        var change := Meaning(ds[0]).value;
        assert ResultPath(change) == Key(ds[0]);
        assert Changes(ds)[0] == change && Changes(ds)[1..] == Changes(others);
        var rest := WithCounts(Changes(others), stats).value;
        assert WithCounts(Changes(ds), stats).value == [(change, stats[Key(ds[0])])] + rest;
        assert Meanings(ds) == [(change, ds[0].counts)] + Meanings(others);
        HeadAndTail((change, stats[Key(ds[0])]), rest, (change, ds[0].counts), Meanings(others));
      }
      assert forall i :: 0 < i < |ds| ==> ds[i] == others[i - 1];
    }
  }

  lemma HeadAndTail<T>(a: T, s: seq<T>, b: T, t: seq<T>)
    ensures [a] + s == [b] + t <==> a == b && s == t
  {
    if [a] + s == [b] + t {
      assert ([a] + s)[0] == ([b] + t)[0];
      assert s == ([a] + s)[1..] && t == ([b] + t)[1..];
    }
  }

  lemma {:induction false} LastCountsExist(ds: seq<Diff>, i: nat)
    requires i < |ds|
    ensures LastCounts(ds, Key(ds[i])).Some?
    decreases |ds|
  {
    if i < |ds| - 1 { LastCountsExist(ds[..|ds| - 1], i); }
  }

  lemma {:induction false} SegmentsHaveNoNul(ds: seq<Diff>)
    requires forall i :: 0 <= i < |ds| ==> Printable(ds[i])
    ensures forall i :: 0 <= i < |AllRaw(ds)| ==> '\0' !in AllRaw(ds)[i]
    ensures forall i :: 0 <= i < |AllNumstat(ds)| ==> '\0' !in AllNumstat(ds)[i]
    decreases |ds|
  {
    if ds != [] {
      SegmentsHaveNoNul(ds[1..]);
      NumberOfCount(ds[0].counts.added);
      NumberOfCount(ds[0].counts.removed);
    }
  }

  lemma {:induction false} EndsWithNul(segments: seq<string>)
    requires segments != []
    ensures var s := Terminated(segments); s != "" && s[|s| - 1] == '\0'
    decreases |segments|
  {
    if |segments| > 1 { EndsWithNul(segments[1..]); }
  }

  /** The record loop over a printed stream collects every change in order and files every count. */
  lemma RecordsOfPrint(ds: seq<Diff>, collected: Progress)
    requires forall i :: 0 <= i < |ds| ==> Printable(ds[i])
    requires collected == Progress(Changes(ds), map[])
    ensures Records(SplitOn(Print(ds), '\0'), Progress([], map[])) == Good(FiledAll(collected, ds))
  {
    var segments := AllRaw(ds) + AllNumstat(ds);
    SegmentsHaveNoNul(ds);
    SplitTerminated(segments);
    assert segments + [""] == AllRaw(ds) + (AllNumstat(ds) + [""]);
    RawsComeBack(ds, AllNumstat(ds) + [""], Progress([], map[]));
    assert [] + Changes(ds) == Changes(ds);
    NumstatsComeBack(ds, collected);
  }

  /** Parsing undoes printing, in order, with blob ids and counts, exactly when regular records naming the same result
      path carry the same counts as the last record naming it. */
  lemma ParseUndoesPrintIff(ds: seq<Diff>)
    requires forall i :: 0 <= i < |ds| ==> Printable(ds[i])
    ensures Parse(Print(ds)) == Good(Meanings(ds)) <==> CountsAgree(ds)
    ensures Parse(Print(ds)).Good?
  {
    if ds != [] {
      var p := Progress(Changes(ds), map[]);
      var q := FiledAll(p, ds);
      RecordsOfPrint(ds, p);
      EndsWithNul(AllRaw(ds) + AllNumstat(ds));
      forall i | 0 <= i < |ds|
        ensures Key(ds[i]) in q.stats && LastCounts(ds, Key(ds[i])) == Some(q.stats[Key(ds[i])])
      {
        LastCountsExist(ds, i);
        LastCountsKept(p, ds, Key(ds[i]));
      }
      LastCountsKept(p, ds, "");
      CountsJoined(ds, q.stats);
    }
  }

  lemma {:induction false} DistinctKeysAgree(ds: seq<Diff>, i: nat)
    requires DistinctKeys(ds) && i < |ds|
    ensures LastCounts(ds, Key(ds[i])) == Some(ds[i].counts)
    decreases |ds|
  {
    if i < |ds| - 1 { DistinctKeysAgree(ds[..|ds| - 1], i); }
  }

  /** In particular with distinct result paths, which is what git prints. */
  lemma ParseUndoesPrint(ds: seq<Diff>)
    requires (forall i :: 0 <= i < |ds| ==> Printable(ds[i])) && DistinctKeys(ds)
    ensures Parse(Print(ds)) == Good(Meanings(ds))
  {
    ParseUndoesPrintIff(ds);
    forall i | 0 <= i < |ds| && Meaning(ds[i]).Some? ensures LastCounts(ds, Key(ds[i])) == Some(ds[i].counts) {
      DistinctKeysAgree(ds, i);
    }
  }
}

/** The parser in its own form: one loop over the segments, then one over the changes. */
module GitChanges {
  import opened Protocol
  import opened Spec = GitChangesSpec

  method ParseGitChanges(output: string) returns (result: Parsed<seq<(Change, Counts)>>)
    ensures result == Spec.Parse(output)
  {
    if |output| == 0 {
      return Good([]);
    }
    if output[|output| - 1] != '\0' {
      return Bad(UnterminatedStream);
    }
    var collected := CollectRecords(SplitOn(output, '\0'));
    match collected
    case Bad(failure) => return Bad(failure);
    case Good(progress) => result := JoinCounts(progress.changes, progress.stats);
  }

  method CollectRecords(segments: seq<string>) returns (result: Parsed<Progress>)
    ensures result == Spec.Records(segments, Progress([], map[]))
  {
    var changes: seq<Change> := [];
    var stats: map<string, Counts> := map[];
    var index := 0;
    while index < |segments|
      invariant 0 <= index <= |segments|
      invariant Records(segments[index..], Progress(changes, stats)) == Records(segments, Progress([], map[]))
    {
      var rest := segments[index..];
      var step := Record(rest, Progress(changes, stats));
      if step.Bad? {
        return Bad(step.failure);
      }
      RestIsSuffix(rest, Progress(changes, stats));
      index := |segments| - |step.value.0|;
      changes, stats := step.value.1.changes, step.value.1.stats;
    }
    result := Good(Progress(changes, stats));
  }

  method JoinCounts(changes: seq<Change>, stats: map<string, Counts>) returns (result: Parsed<seq<(Change, Counts)>>)
    ensures result == Spec.WithCounts(changes, stats)
  {
    var counted: seq<(Change, Counts)> := [];
    assert changes[0..] == changes;
    PrefixedNothing(WithCounts(changes, stats));
    for i := 0 to |changes|
      invariant WithCounts(changes, stats) == Prefixed(counted, WithCounts(changes[i..], stats))
    {
      assert changes[i..][1..] == changes[i + 1..];
      var path := ResultPath(changes[i]);
      if path !in stats {
        return Bad(MissingNumstat);
      }
      var before := counted;
      counted := counted + [(changes[i], stats[path])];
      PrefixedTwice(before, (changes[i], stats[path]), WithCounts(changes[i + 1..], stats));
    }
    assert counted + [] == counted;
    result := Good(counted);
  }

  ghost function Prefixed<T>(done: seq<T>, rest: Parsed<seq<T>>): Parsed<seq<T>> {
    match rest case Bad(failure) => Bad(failure) case Good(others) => Good(done + others)
  }

  lemma PrefixedNothing<T>(rest: Parsed<seq<T>>)
    ensures Prefixed([], rest) == rest
  {
    if rest.Good? { assert [] + rest.value == rest.value; }
  }

  lemma PrefixedTwice<T>(done: seq<T>, x: T, rest: Parsed<seq<T>>)
    ensures Prefixed(done, Prefixed([x], rest)) == Prefixed(done + [x], rest)
  {
    if rest.Good? { assert done + ([x] + rest.value) == (done + [x]) + rest.value; }
  }

  lemma RestIsSuffix(rest: seq<string>, p: Progress)
    requires rest != []
    ensures var r := Record(rest, p); r.Good? ==> r.value.0 == rest[|rest| - |r.value.0|..]
  {
  }
}
