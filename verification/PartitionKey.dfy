/** Object keys of the lake: path-segment sanitising and the partition layout
    `<layer>/source=<s>/year=<Y>/month=<MM>/day=<DD>/<event_id>.parquet`. */
module PartitionKey {
  import opened Common
  import opened Text
  import opened Events

  datatype LakeLayer = Bronze | Silver

  function LayerName(layer: LakeLayer): string {
    match layer case Bronze => "bronze" case Silver => "silver"
  }

  // ---------------------------------------------------------------- sanitising

  /** `[a-zA-Z0-9\-_.]` */
  predicate SafeChar(c: char) {
    'a' <= c <= 'z' || 'A' <= c <= 'Z' || '0' <= c <= '9' || c == '-' || c == '_' || c == '.'
  }

  function DropNul(s: string): string {
    if s == "" then "" else if s[0] == '\0' then DropNul(s[1..]) else [s[0]] + DropNul(s[1..])
  }

  /** The regular-expression substitution, for a replacement taken literally. */
  function MapUnsafe(s: string, replacement: string): string {
    if s == "" then ""
    else (if SafeChar(s[0]) then [s[0]] else replacement) + MapUnsafe(s[1..], replacement)
  }

  predicate HasDoubleDot(s: string) {
    exists i :: 0 <= i < |s| - 1 && s[i] == '.' && s[i + 1] == '.'
  }

  /** `s.replace("..", ".")`: non-overlapping matches, left to right. */
  function ReplaceDots(s: string): string {
    if |s| >= 2 && s[0] == '.' && s[1] == '.' then "." + ReplaceDots(s[2..])
    else if s == "" then ""
    else [s[0]] + ReplaceDots(s[1..])
  }

  function Push(c: char, s: string): string {
    if c == '.' && s != "" && s[0] == '.' then s else [c] + s
  }

  /** One pass: every maximal run of dots becomes a single dot. */
  function Collapse(s: string): string {
    if s == "" then "" else Push(s[0], Collapse(s[1..]))
  }

  /** The one-pass specification of sanitising. */
  function Sanitize(segment: string, replacement: string): string {
    Collapse(MapUnsafe(DropNul(segment), replacement))
  }

  lemma {:induction false} CollapseReplace(s: string)
    ensures Collapse(ReplaceDots(s)) == Collapse(s)
  {
    if |s| >= 2 && s[0] == '.' && s[1] == '.' {
      var rest := ReplaceDots(s[2..]);
      CollapseReplace(s[2..]);
      assert ("." + rest)[1..] == rest;
      assert s[1..][1..] == s[2..];
      assert Collapse(s[1..]) == Push('.', Collapse(s[2..]));
    } else if s != "" {
      var rest := ReplaceDots(s[1..]);
      CollapseReplace(s[1..]);
      assert ([s[0]] + rest)[1..] == rest;
    }
  }

  lemma {:induction false} ReplaceShortens(s: string)
    ensures |ReplaceDots(s)| <= |s|
    ensures HasDoubleDot(s) ==> |ReplaceDots(s)| < |s|
  {
    if |s| >= 2 && s[0] == '.' && s[1] == '.' {
      ReplaceShortens(s[2..]);
    } else if s != "" {
      ReplaceShortens(s[1..]);
      if HasDoubleDot(s) {
        var i :| 0 <= i < |s| - 1 && s[i] == '.' && s[i + 1] == '.';
        assert s[1..][i - 1] == '.' && s[1..][i - 1 + 1] == '.';
      }
    }
  }

  lemma {:induction false} CollapseFixed(s: string)
    requires !HasDoubleDot(s)
    ensures Collapse(s) == s
  {
    if s != "" {
      assert !HasDoubleDot(s[1..]);
      CollapseFixed(s[1..]);
    }
  }

  lemma {:induction false} CollapseSingleDots(s: string)
    ensures !HasDoubleDot(Collapse(s))
    ensures forall i :: 0 <= i < |Collapse(s)| ==> Collapse(s)[i] in s
  {
    if s != "" {
      CollapseSingleDots(s[1..]);
    }
  }

  /** The loop of the source, for any replacement text. */
  method SanitizePathSegment(segment: string, replacement: string := "_") returns (r: string)
    ensures r == Sanitize(segment, replacement)
    ensures !HasDoubleDot(r)
  {
    r := MapUnsafe(DropNul(segment), replacement);
    while HasDoubleDot(r)
      invariant Collapse(r) == Sanitize(segment, replacement)
      decreases |r|
    {
      ReplaceShortens(r);
      CollapseReplace(r);
      r := ReplaceDots(r);
    }
    CollapseFixed(r);
  }

  /** A segment that may stand in a key as it is. */
  ghost predicate SafeSegment(s: string) {
    (forall i :: 0 <= i < |s| ==> SafeChar(s[i])) && !HasDoubleDot(s)
  }

  lemma {:induction false} MapUnsafeSafe(s: string, replacement: string)
    requires forall i :: 0 <= i < |replacement| ==> SafeChar(replacement[i])
    ensures forall i :: 0 <= i < |MapUnsafe(s, replacement)| ==> SafeChar(MapUnsafe(s, replacement)[i])
  {
    if s != "" {
      MapUnsafeSafe(s[1..], replacement);
    }
  }

  lemma {:induction false} SafeCharsUnmapped(s: string, replacement: string)
    requires forall i :: 0 <= i < |s| ==> SafeChar(s[i])
    ensures MapUnsafe(DropNul(s), replacement) == s
  {
    if s != "" {
      SafeCharsUnmapped(s[1..], replacement);
      assert SafeChar(s[0]);
      assert ([s[0]] + DropNul(s[1..]))[1..] == DropNul(s[1..]);
      assert s == [s[0]] + s[1..];
    }
  }

  /** The output of sanitising is a safe segment, and the safe segments are exactly the ones
      left alone; so sanitising is idempotent. */
  lemma SanitizeFixesExactlySafe(s: string, replacement: string)
    requires forall i :: 0 <= i < |replacement| ==> SafeChar(replacement[i])
    ensures SafeSegment(Sanitize(s, replacement))
    ensures Sanitize(s, replacement) == s <==> SafeSegment(s)
    ensures Sanitize(Sanitize(s, replacement), replacement) == Sanitize(s, replacement)
  {
    var m := MapUnsafe(DropNul(s), replacement);
    MapUnsafeSafe(DropNul(s), replacement);
    CollapseSingleDots(m);
    var t := Sanitize(s, replacement);
    assert forall i :: 0 <= i < |t| ==> t[i] in m;
    SafeIsFixed(t, replacement);
    if SafeSegment(s) {
      SafeIsFixed(s, replacement);
    }
  }

  lemma SafeIsFixed(s: string, replacement: string)
    requires SafeSegment(s)
    ensures Sanitize(s, replacement) == s
  {
    SafeCharsUnmapped(s, replacement);
    CollapseFixed(s);
  }

  /** No path separator, no `=` and no `..` survive. */
  lemma SafeSegmentHarmless(s: string)
    requires SafeSegment(s)
    ensures Free(s, '/') && Free(s, '=') && Free(s, '\\') && Free(s, '\0')
  {
  }

  lemma {:induction false} DropNulFixed(s: string)
    requires Free(s, '\0')
    ensures DropNul(s) == s
  {
    if s != "" {
      assert s[0] in s;
      assert Free(s[1..], '\0');
      DropNulFixed(s[1..]);
      assert DropNul(s) == [s[0]] + s[1..];
    }
  }

  lemma {:induction false} MapUnsafeConcat(a: string, b: string, replacement: string)
    ensures MapUnsafe(a + b, replacement) == MapUnsafe(a, replacement) + MapUnsafe(b, replacement)
  {
    if a == "" {
      assert a + b == b;
    } else {
      assert (a + b)[1..] == a[1..] + b;
      MapUnsafeConcat(a[1..], b, replacement);
    }
  }

  lemma {:induction false} SafeUnmapped(s: string, replacement: string)
    requires SafeSegment(s)
    ensures Free(s, '\0') && MapUnsafe(s, replacement) == s && Collapse(s) == s
  {
    SafeSegmentHarmless(s);
    DropNulFixed(s);
    SafeCharsUnmapped(s, replacement);
    CollapseFixed(s);
  }

  lemma {:induction false} DropNulConcat(a: string, b: string)
    ensures DropNul(a + b) == DropNul(a) + DropNul(b)
  {
    if a == "" {
      assert a + b == b;
    } else {
      assert (a + b)[1..] == a[1..] + b;
      DropNulConcat(a[1..], b);
    }
  }

  lemma {:induction false} CollapseAfterSafe(a: string, b: string)
    requires !HasDoubleDot(a) && b != "" && b[0] != '.'
    ensures |Collapse(a + b)| == |a| + |Collapse(b)|
    ensures Collapse(a + b) != "" && Collapse(a + b)[0] == (a + b)[0]
  {
    if a == "" {
      assert a + b == b;
    } else {
      assert (a + b)[1..] == a[1..] + b;
      assert !HasDoubleDot(a[1..]);
      CollapseAfterSafe(a[1..], b);
      if a[0] == '.' && |a| >= 2 {
        assert a[1] != '.';
      }
    }
  }

  /** A safe segment is never the sanitised form of a path that starts with it. */
  lemma SanitizedPathDiffers(a: string, b: string)
    requires SafeSegment(a)
    ensures Sanitize(a + "/" + b, "_") != a
  {
    SafeUnmapped(a, "_");
    DropNulConcat(a + "/", b);
    DropNulConcat(a, "/");
    DropNulFixed(a);
    DropNulFixed("/");
    var rest := DropNul(b);
    MapUnsafeConcat(a + "/", rest, "_");
    MapUnsafeConcat(a, "/", "_");
    var tail := "_" + MapUnsafe(rest, "_");
    assert MapUnsafe("/", "_") == "_";
    assert Sanitize(a + "/" + b, "_") == Collapse(a + tail) by {
      assert a + "_" + MapUnsafe(rest, "_") == a + tail;
    }
    CollapseAfterSafe(a, tail);
    CollapseAfterSafe("", tail);
  }

  lemma JoinedSafe(a: string, b: string)
    requires SafeSegment(a) && SafeSegment(b) && a != "" && b != ""
    requires a[|a| - 1] != '.' || b[0] != '.'
    ensures SafeSegment(a + b)
  {
    var s := a + b;
    forall i | 0 <= i < |s| - 1 ensures !(s[i] == '.' && s[i + 1] == '.') {
      if i >= |a| {
        assert s[i] == b[i - |a|] && s[i + 1] == b[i + 1 - |a|];
      }
    }
  }

  lemma MapAroundTraversal(a: string, b: string)
    requires SafeSegment(a) && SafeSegment(b)
    ensures MapUnsafe(DropNul(a + "/../" + b), "_") == a + "_.._" + b
  {
    SafeUnmapped(a, "_");
    SafeUnmapped(b, "_");
    DropNulFixed(a + "/../" + b);
    MapUnsafeConcat(a + "/../", b, "_");
    MapUnsafeConcat(a, "/../", "_");
    MapTraversal();
  }

  /** A traversal between two safe names keeps one dot: `path/../evil` gives `path_._evil`. */
  lemma TraversalKeepsDot(a: string, b: string)
    requires SafeSegment(a) && SafeSegment(b) && a != "" && b != ""
    ensures Sanitize(a + "/../" + b, "_") == a + "_._" + b
  {
    MapAroundTraversal(a, b);
    assert SafeSegment("_._");
    JoinedSafe(a, "_._");
    JoinedSafe(a + "_._", b);
    CollapseFixed(a + "_._" + b);
    CollapseTraversal(a, b);
  }

  lemma CollapseTraversal(a: string, b: string)
    ensures Collapse(a + "_.._" + b) == Collapse(a + "_._" + b)
  {
    CollapseOne(a + "_", "_" + b);
    assert a + "_.._" + b == a + "_" + ".." + ("_" + b);
    assert a + "_._" + b == a + "_" + "." + ("_" + b);
  }

  lemma MapTraversal()
    ensures MapUnsafe("/../", "_") == "_.._"
  {
    assert "/../"[1..] == "../" && "../"[1..] == "./" && "./"[1..] == "/" && "/"[1..] == "";
    assert MapUnsafe("/", "_") == "_" && MapUnsafe("./", "_") == "._" && MapUnsafe("../", "_") == ".._";
  }

  /** Two dots collapse like one. */
  lemma {:induction false} CollapseOne(a: string, b: string)
    ensures Collapse(a + ".." + b) == Collapse(a + "." + b)
  {
    var two, one := a + ".." + b, a + "." + b;
    if a == "" {
      assert two[1..] == one && one[1..] == b;
    } else {
      assert two[1..] == a[1..] + ".." + b && one[1..] == a[1..] + "." + b;
      CollapseOne(a[1..], b);
    }
  }

  /** Sanitising identifies different ids, so object keys need not tell events apart. */
  lemma SanitizeNotInjective()
    ensures "a/b" != "a_b" && Sanitize("a/b", "_") == Sanitize("a_b", "_") == "a_b"
  {
    assert SafeSegment("a_b");
    SafeIsFixed("a_b", "_");
    assert MapUnsafe("b", "_") == "b";
    assert MapUnsafe("/b", "_") == "_b" by { assert "/b"[1..] == "b"; }
    assert MapUnsafe("a/b", "_") == "a_b" by { assert "a/b"[1..] == "/b"; }
    assert DropNul("b") == "b";
    assert DropNul("/b") == "/b" by { assert "/b"[1..] == "b"; }
    assert DropNul("a/b") == "a/b" by { assert "a/b"[1..] == "/b"; }
  }

  // ---------------------------------------------------------------- keys

  const EXTENSION := ".parquet"

  function SourcePart(source: string): string { "source=" + source }
  function YearPart(d: Date): string { "year=" + Decimal(d.year) }
  function MonthPart(d: Date): string { "month=" + TwoDigits(d.month) }
  function DayPart(d: Date): string { "day=" + TwoDigits(d.day) }

  /** The five components of a partition directory. */
  function PartitionParts(layer: string, source: string, d: Date): seq<string> {
    [layer, SourcePart(source), YearPart(d), MonthPart(d), DayPart(d)]
  }

  function EventSource(e: Event): string { Sanitize(e.source, "_") }

  function FileName(e: Event): string { Sanitize(e.eventId, "_") + EXTENSION }

  function BuildPartitionKey(e: Event, layer: LakeLayer): string {
    Directory(PartitionParts(LayerName(layer), EventSource(e), e.collectedAt.date)) + FileName(e)
  }

  lemma PartsFree(layer: string, source: string, d: Date)
    requires Free(layer, '/') && Free(source, '/')
    ensures forall i :: 0 <= i < 5 ==> Free(PartitionParts(layer, source, d)[i], '/')
  {
    assert Free(Decimal(d.year), '/') && Free(TwoDigits(d.month), '/') && Free(TwoDigits(d.day), '/');
  }

  lemma EventPartsFree(e: Event, layer: LakeLayer)
    ensures Free(LayerName(layer), '/') && Free(EventSource(e), '/') && Free(FileName(e), '/')
  {
    SanitizeFixesExactlySafe(e.source, "_");
    SanitizeFixesExactlySafe(e.eventId, "_");
    SafeSegmentHarmless(EventSource(e));
    SafeSegmentHarmless(Sanitize(e.eventId, "_"));
  }

  /** Two events share an object key exactly when they agree on layer, sanitised source,
      collection date and sanitised event id. */
  lemma KeyEquality(a: Event, la: LakeLayer, b: Event, lb: LakeLayer)
    requires ValidDate(a.collectedAt.date) && ValidDate(b.collectedAt.date)
    ensures BuildPartitionKey(a, la) == BuildPartitionKey(b, lb)
       <==> la == lb && EventSource(a) == EventSource(b) && a.collectedAt.date == b.collectedAt.date
            && Sanitize(a.eventId, "_") == Sanitize(b.eventId, "_")
  {
    if BuildPartitionKey(a, la) == BuildPartitionKey(b, lb) {
      var pa := PartitionParts(LayerName(la), EventSource(a), a.collectedAt.date);
      var pb := PartitionParts(LayerName(lb), EventSource(b), b.collectedAt.date);
      EventPartsFree(a, la);
      EventPartsFree(b, lb);
      PartsFree(LayerName(la), EventSource(a), a.collectedAt.date);
      PartsFree(LayerName(lb), EventSource(b), b.collectedAt.date);
      DirectoryFiles(pa, FileName(a));
      DirectoryFiles(pb, FileName(b));
      assert pa + [FileName(a)] == pb + [FileName(b)];
      assert (pa + [FileName(a)])[5] == (pb + [FileName(b)])[5];
      assert FileName(a)[..|FileName(a)| - 8] == Sanitize(a.eventId, "_");
      assert FileName(b)[..|FileName(b)| - 8] == Sanitize(b.eventId, "_");
      assert pa == pb by { assert (pa + [FileName(a)])[..5] == (pb + [FileName(b)])[..5]; }
      PartsInjective(LayerName(la), EventSource(a), a.collectedAt.date, LayerName(lb), EventSource(b), b.collectedAt.date);
    }
  }

  lemma PartsInjective(l1: string, s1: string, d1: Date, l2: string, s2: string, d2: Date)
    requires PartitionParts(l1, s1, d1) == PartitionParts(l2, s2, d2)
    requires ValidDate(d1) && ValidDate(d2)
    ensures l1 == l2 && s1 == s2 && d1 == d2
  {
    var p1, p2 := PartitionParts(l1, s1, d1), PartitionParts(l2, s2, d2);
    assert p1[0] == p2[0] && p1[1] == p2[1] && p1[2] == p2[2] && p1[3] == p2[3] && p1[4] == p2[4];
    assert s1 == p1[1][7..] && s2 == p2[1][7..];
    assert Decimal(d1.year) == p1[2][5..] && Decimal(d2.year) == p2[2][5..];
    assert TwoDigits(d1.month) == p1[3][6..] && TwoDigits(d2.month) == p2[3][6..];
    assert TwoDigits(d1.day) == p1[4][4..] && TwoDigits(d2.day) == p2[4][4..];
    DecimalInjective(d1.year, d2.year);
    ParseTwoDigits(d1.month); ParseTwoDigits(d2.month);
    ParseTwoDigits(d1.day); ParseTwoDigits(d2.day);
  }

  // ---------------------------------------------------------------- the adapters' event ids

  lemma {:induction false} CollapseAround(a: string, b: string)
    ensures Collapse(a + "_" + b) == Collapse(a) + "_" + Collapse(b)
  {
    if a == "" {
      assert a + "_" + b == "_" + b && ("_" + b)[1..] == b;
    } else {
      assert (a + "_" + b)[1..] == a[1..] + "_" + b;
      CollapseAround(a[1..], b);
    }
  }

  /** A colon becomes an underscore, and the parts around it are sanitised each for itself. */
  lemma SanitizeJoin(a: string, b: string)
    ensures Sanitize(a + ":" + b, "_") == Sanitize(a, "_") + "_" + Sanitize(b, "_")
  {
    DropNulConcat(a + ":", b);
    DropNulConcat(a, ":");
    DropNulFixed(":");
    var x, y := DropNul(a), DropNul(b);
    MapUnsafeConcat(x + ":", y, "_");
    MapUnsafeConcat(x, ":", "_");
    assert MapUnsafe(":", "_") == "_";
    CollapseAround(MapUnsafe(x, "_"), MapUnsafe(y, "_"));
  }

  /** `f"{source}:{external_id}:{collected_at.isoformat()}"` */
  function AdapterId(source: string, externalId: string, iso: string): string {
    source + ":" + externalId + ":" + iso
  }

  /** `YYYY-MM-DDTHH:MM:SS`, microseconds unless they are zero, and the offset from UTC. */
  predicate IsoForm(t: string) {
    (|t| == 25 || |t| == 32) && forall i :: 0 <= i < |t| ==> IsoAt(t, i)
  }

  predicate IsoAt(t: string, i: nat)
    requires i < |t|
  {
    if i == 4 || i == 7 then t[i] == '-'
    else if i == 10 then t[i] == 'T'
    else if i == 13 || i == 16 || i == |t| - 3 then t[i] == ':'
    else if i == |t| - 6 then t[i] == '+' || t[i] == '-'
    else if i == 19 then t[i] == '.'
    else IsDigit(t[i])
  }

  lemma IsoFormPossible()
    ensures IsoForm("2026-09-18T12:00:00+00:00")
  {
    var t := "2026-09-18T12:00:00+00:00";
    assert t[0] == '2' && t[1] == '0' && t[2] == '2' && t[3] == '6' && t[5] == '0' && t[6] == '9' && t[8] == '1' && t[9] == '8';
    assert t[11] == '1' && t[12] == '2' && t[14] == '0' && t[15] == '0' && t[17] == '0' && t[18] == '0';
    assert t[20] == '0' && t[21] == '0' && t[23] == '0' && t[24] == '0';
    assert t[4] == t[7] == '-' && t[10] == 'T' && t[13] == t[16] == t[22] == ':' && t[19] == '+';
  }

  /** An event as the adapters build it. */
  predicate AdapterEvent(e: Event) {
    e.eventId == AdapterId(e.source, e.externalId, e.collectedAt.iso) && IsoForm(e.collectedAt.iso)
  }

  function Mapped(c: char): char {
    if SafeChar(c) then c else '_'
  }

  lemma {:induction false} MapPositions(s: string)
    ensures |MapUnsafe(s, "_")| == |s| && forall i :: 0 <= i < |s| ==> MapUnsafe(s, "_")[i] == Mapped(s[i])
  {
    if s != "" {
      MapPositions(s[1..]);
    }
  }

  lemma SanitizedIso(t: string)
    requires IsoForm(t)
    ensures |Sanitize(t, "_")| == |t| && forall i :: 0 <= i < |t| ==> Sanitize(t, "_")[i] == Mapped(t[i])
  {
    forall i | 0 <= i < |t| ensures t[i] != '\0' && (t[i] == '.' ==> i == 19) {
      assert IsoAt(t, i);
    }
    DropNulFixed(t);
    MapPositions(t);
    SingleDotFixed(t, MapUnsafe(t, "_"));
  }

  lemma SingleDotFixed(t: string, m: string)
    requires |m| == |t| && forall i :: 0 <= i < |t| ==> m[i] == Mapped(t[i]) && (t[i] == '.' ==> i == 19)
    ensures Collapse(m) == m
  {
    forall i | 0 <= i < |m| - 1 ensures !(m[i] == '.' && m[i + 1] == '.') {
      assert (t[i] == '.' ==> i == 19) && (t[i + 1] == '.' ==> i + 1 == 19);
    }
    CollapseFixed(m);
  }

  /** Sanitising keeps the times apart, and a time ends a name in one way only. */
  lemma TimesApart(x1: string, t1: string, x2: string, t2: string)
    requires IsoForm(t1) && IsoForm(t2)
    requires x1 + "_" + Sanitize(t1, "_") == x2 + "_" + Sanitize(t2, "_")
    ensures x1 == x2 && t1 == t2
  {
    var z1, z2 := x1 + "_" + Sanitize(t1, "_"), x2 + "_" + Sanitize(t2, "_");
    SanitizedIso(t1);
    SanitizedIso(t2);
    NinthFromEnd(x1, t1);
    NinthFromEnd(x2, t2);
    assert |t1| == |t2|;
    forall i | 0 <= i < |t1| ensures t1[i] == t2[i] {
      assert IsoAt(t1, i) && IsoAt(t2, i);
      assert z1[|z1| - |t1| + i] == Mapped(t1[i]) && z2[|z2| - |t2| + i] == Mapped(t2[i]);
    }
    assert x1 == z1[..|x1|] && x2 == z2[..|x2|];
  }

  lemma NinthFromEnd(x: string, t: string)
    requires IsoForm(t)
    ensures var z := x + "_" + Sanitize(t, "_");
            |z| >= 9 && (z[|z| - 9] == '_' <==> |t| == 25)
  {
    SanitizedIso(t);
    var z := x + "_" + Sanitize(t, "_");
    assert IsoAt(t, |t| - 9);
    assert z[|z| - 9] == Mapped(t[|t| - 9]);
  }

  lemma SanitizedAdapterId(e: Event)
    requires AdapterEvent(e)
    ensures Sanitize(e.eventId, "_")
         == EventSource(e) + "_" + (Sanitize(e.externalId, "_") + "_" + Sanitize(e.collectedAt.iso, "_"))
  {
    SanitizeJoin(e.externalId, e.collectedAt.iso);
    SanitizeJoin(e.source, e.externalId + ":" + e.collectedAt.iso);
    assert e.eventId == e.source + ":" + (e.externalId + ":" + e.collectedAt.iso);
  }

  /** For events with the adapters' ids: two share a key exactly when they agree on layer, sanitised
      source, sanitised external id and collection time. */
  lemma AdapterKeyEquality(a: Event, la: LakeLayer, b: Event, lb: LakeLayer)
    requires ValidDate(a.collectedAt.date) && ValidDate(b.collectedAt.date) && AdapterEvent(a) && AdapterEvent(b)
    ensures BuildPartitionKey(a, la) == BuildPartitionKey(b, lb)
       <==> la == lb && EventSource(a) == EventSource(b) && a.collectedAt == b.collectedAt
            && Sanitize(a.externalId, "_") == Sanitize(b.externalId, "_")
  {
    KeyEquality(a, la, b, lb);
    SanitizedAdapterId(a);
    SanitizedAdapterId(b);
    if BuildPartitionKey(a, la) == BuildPartitionKey(b, lb) {
      var s := EventSource(a) + "_";
      var ra := Sanitize(a.externalId, "_") + "_" + Sanitize(a.collectedAt.iso, "_");
      var rb := Sanitize(b.externalId, "_") + "_" + Sanitize(b.collectedAt.iso, "_");
      assert ra == (s + ra)[|s|..] == (s + rb)[|s|..] == rb;
      TimesApart(Sanitize(a.externalId, "_"), a.collectedAt.iso, Sanitize(b.externalId, "_"), b.collectedAt.iso);
    }
  }

  // ---------------------------------------------------------------- the texts themselves

  /** ASCII letters and digits, hyphen, full stop and underscore, by their codes. */
  lemma SafeCharIff(c: char)
    ensures SafeChar(c) <==> 48 <= c as int <= 57 || 65 <= c as int <= 90 || 97 <= c as int <= 122 || c as int in {45, 46, 95}
  {
  }

  /** NUL is dropped, not replaced. */
  lemma NulIgnored(a: string, b: string, replacement: string)
    ensures Sanitize(a + "\0" + b, replacement) == Sanitize(a + b, replacement)
  {
    DropNulConcat(a + "\0", b);
    DropNulConcat(a, "\0");
    DropNulConcat(a, b);
    assert DropNul("\0") == "";
    assert DropNul(a) + "" + DropNul(b) == DropNul(a) + DropNul(b);
  }

  /** The object key as a text. */
  lemma KeyText(e: Event, layer: LakeLayer)
    ensures var d := e.collectedAt.date;
            BuildPartitionKey(e, layer)
            == (if layer.Bronze? then "bronze" else "silver") + "/source=" + Sanitize(e.source, "_") + "/year=" + Decimal(d.year)
               + "/month=" + TwoDigits(d.month) + "/day=" + TwoDigits(d.day) + "/" + Sanitize(e.eventId, "_") + ".parquet"
  {
    var d := e.collectedAt.date;
    var l, s, y, m, n := LayerName(layer), EventSource(e), Decimal(d.year), TwoDigits(d.month), TwoDigits(d.day);
    FiveParts(l, SourcePart(s), YearPart(d), MonthPart(d), DayPart(d));
    var l1 := l + "/source=" + s;
    var l2 := l1 + "/year=" + y;
    var l3 := l2 + "/month=" + m;
    var l4 := l3 + "/day=" + n;
    assert "/" + "source=" == "/source=" && "/" + "year=" == "/year=" && "/" + "month=" == "/month=" && "/" + "day=" == "/day=";
    Joined(l, "source=", s);
    Joined(l1, "year=", y);
    Joined(l2, "month=", m);
    Joined(l3, "day=", n);
    assert Directory(PartitionParts(l, s, d)) == l4 + "/";
    assert l4 + "/" + (Sanitize(e.eventId, "_") + ".parquet") == l4 + "/" + Sanitize(e.eventId, "_") + ".parquet";
  }

  lemma Joined(before: string, name: string, value: string)
    ensures before + "/" + (name + value) == before + ("/" + name) + value
  {
  }

  lemma FiveParts(a: string, b: string, c: string, d: string, e: string)
    ensures Directory([a, b, c, d, e]) == a + "/" + b + "/" + c + "/" + d + "/" + e + "/"
  {
    assert [a, b, c, d, e][1..] == [b, c, d, e] && [b, c, d, e][1..] == [c, d, e] && [c, d, e][1..] == [d, e] && [d, e][1..] == [e];
    assert Directory([e]) == e + "/" + Directory([]);
    assert Directory([d, e]) == d + "/" + Directory([e]);
    assert Directory([c, d, e]) == c + "/" + Directory([d, e]);
    assert Directory([b, c, d, e]) == b + "/" + Directory([c, d, e]);
  }
}
