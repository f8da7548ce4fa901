/** The two-way line index that the debug adapter builds from a source map's `mappings`. */
module SourceMap {
  import opened Alphabet
  import opened Vlq

  /** Original line `original` has code on transpiled line `transpiled`. */
  datatype Point = Point(original: int, transpiled: nat)

  // ---------- Splitting ----------

  /** `s.split(sep)` for a one-character separator. */
  function Split(s: string, sep: char): (parts: seq<string>)
    ensures |parts| >= 1
  {
    if s == [] then [[]]
    else
      var rest := Split(s[1..], sep);
      if s[0] == sep then [[]] + rest else [[s[0]] + rest[0]] + rest[1..]
  }

  function Join(parts: seq<string>, sep: char): string
    requires |parts| >= 1
  {
    if |parts| == 1 then parts[0] else parts[0] + [sep] + Join(parts[1..], sep)
  }

  lemma {:induction false} SplitFirst(p: string, rest: string, sep: char)
    requires sep !in p
    ensures Split(p + [sep] + rest, sep) == [p] + Split(rest, sep)
    ensures Split(p, sep) == [p]
  {
    if p != [] {
      SplitFirst(p[1..], rest, sep);
      assert (p + [sep] + rest)[0] == p[0] && (p + [sep] + rest)[1..] == p[1..] + [sep] + rest;
      assert [p[0]] + p[1..] == p;
    } else {
      assert (p + [sep] + rest)[1..] == rest;
    }
  }

  lemma {:induction false} SplitJoin(parts: seq<string>, sep: char)
    requires |parts| >= 1 && forall i :: 0 <= i < |parts| ==> sep !in parts[i]
    ensures Split(Join(parts, sep), sep) == parts
  {
    hide Split;
    if |parts| == 1 {
      SplitFirst(parts[0], [], sep);
    } else {
      SplitJoin(parts[1..], sep);
      SplitFirst(parts[0], Join(parts[1..], sep), sep);
      assert [parts[0]] + parts[1..] == parts;
    }
  }

  // ---------- Points of a mappings string ----------

  /** The original line after one more segment, whose third field is a delta for it. */
  function NextLine(fields: seq<int>, o: int): int {
    if |fields| >= 3 then o + fields[2] else o
  }

  function SegmentPoint(fields: seq<int>, t: nat, o: int): seq<Point> {
    if |fields| >= 3 then [Point(o + fields[2], t)] else []
  }

  function LinePoints(segments: seq<seq<int>>, t: nat, o: int): seq<Point> {
    if segments == [] then []
    else SegmentPoint(segments[0], t, o) + LinePoints(segments[1..], t, NextLine(segments[0], o))
  }

  function LineEnd(segments: seq<seq<int>>, o: int): int {
    if segments == [] then o else LineEnd(segments[1..], NextLine(segments[0], o))
  }

  /** The points of a map given as lines of segments of fields. */
  function MapPoints(lines: seq<seq<seq<int>>>, t: nat, o: int): seq<Point> {
    if lines == [] then []
    else LinePoints(lines[0], t, o) + MapPoints(lines[1..], t + 1, LineEnd(lines[0], o))
  }

  function Fields(segments: seq<string>): seq<seq<int>> {
    seq(|segments|, i requires 0 <= i < |segments| => Decode(segments[i]))
  }

  function Lines(lines: seq<string>): seq<seq<seq<int>>> {
    seq(|lines|, i requires 0 <= i < |lines| => Fields(Split(lines[i], ',')))
  }

  /** The points that a `mappings` string stands for. */
  function Points(mappings: string): seq<Point> {
    MapPoints(Lines(Split(mappings, ';')), 0, 0)
  }

  // ---------- Original lines are running sums ----------

  /** The third fields of all segments that have one, in order. */
  function LineDeltas(segments: seq<seq<int>>): seq<int> {
    if segments == [] then []
    else (if |segments[0]| >= 3 then [segments[0][2]] else []) + LineDeltas(segments[1..])
  }

  function MapDeltas(lines: seq<seq<seq<int>>>): seq<int> {
    if lines == [] then [] else LineDeltas(lines[0]) + MapDeltas(lines[1..])
  }

  /** For each of those segments, the number of the line it is on. */
  function MapRows(lines: seq<seq<seq<int>>>, t: nat): seq<nat> {
    if lines == [] then [] else seq(|LineDeltas(lines[0])|, _ => t) + MapRows(lines[1..], t + 1)
  }

  function Sum(xs: seq<int>): int {
    if xs == [] then 0 else Sum(xs[..|xs| - 1]) + xs[|xs| - 1]
  }

  lemma {:induction false} SumConcat(a: seq<int>, b: seq<int>)
    ensures Sum(a + b) == Sum(a) + Sum(b)
  {
    if b == [] {
      assert a + b == a;
    } else {
      SumConcat(a, b[..|b| - 1]);
      assert (a + b)[..|a + b| - 1] == a + b[..|b| - 1];
    }
  }

  /** Sums of a concatenation: those of the first part, then those of the second on top of its total. */
  lemma SumPrefix(a: seq<int>, b: seq<int>, k: nat)
    requires k <= |a| + |b|
    ensures Sum((a + b)[..k]) == if k <= |a| then Sum(a[..k]) else Sum(a) + Sum(b[..k - |a|])
  {
    hide Sum;
    if k <= |a| {
      assert (a + b)[..k] == a[..k];
    } else {
      assert (a + b)[..k] == a + b[..k - |a|];
      SumConcat(a, b[..k - |a|]);
    }
  }

  lemma {:induction false} LineIsSums(segments: seq<seq<int>>, t: nat, o: int)
    ensures var ps, ds := LinePoints(segments, t, o), LineDeltas(segments);
            && |ps| == |ds| && LineEnd(segments, o) == o + Sum(ds)
            && forall k :: 0 <= k < |ps| ==> ps[k] == Point(o + Sum(ds[..k + 1]), t)
  {
    if segments != [] {
      var fields, o' := segments[0], NextLine(segments[0], o);
      LineIsSums(segments[1..], t, o');
      var ps, ds, rest := LinePoints(segments, t, o), LineDeltas(segments), LineDeltas(segments[1..]);
      if |fields| >= 3 {
        assert Sum([fields[2]]) == fields[2] by { assert [fields[2]][..0] == []; }
        SumConcat([fields[2]], rest);
        forall k | 0 <= k < |ps| ensures ps[k] == Point(o + Sum(ds[..k + 1]), t) {
          SumPrefix([fields[2]], rest, k + 1);
          if k == 0 {
            assert [fields[2]][..1] == [fields[2]];
          } else {
            assert ps[k] == LinePoints(segments[1..], t, o')[k - 1];
          }
        }
      } else {
        assert ds == rest && ps == LinePoints(segments[1..], t, o);
      }
    }
  }

  lemma {:induction false} MapIsSums(lines: seq<seq<seq<int>>>, t: nat, o: int)
    ensures var ps, ds, rows := MapPoints(lines, t, o), MapDeltas(lines), MapRows(lines, t);
            && |ps| == |ds| == |rows|
            && forall k :: 0 <= k < |ps| ==> ps[k] == Point(o + Sum(ds[..k + 1]), rows[k])
  {
    hide LinePoints, LineEnd, LineDeltas, Sum;
    if lines != [] {
      var o' := LineEnd(lines[0], o);
      LineIsSums(lines[0], t, o);
      MapIsSums(lines[1..], t + 1, o');
      var ps, ds, rows := MapPoints(lines, t, o), MapDeltas(lines), MapRows(lines, t);
      var a, b := LineDeltas(lines[0]), MapDeltas(lines[1..]);
      forall k | 0 <= k < |ps| ensures ps[k] == Point(o + Sum(ds[..k + 1]), rows[k]) {
        SumPrefix(a, b, k + 1);
        if k >= |a| {
          assert ps[k] == MapPoints(lines[1..], t + 1, o')[k - |a|] && rows[k] == MapRows(lines[1..], t + 1)[k - |a|];
        }
      }
    }
  }

  /** The k-th point of a `mappings` string is on the line of the k-th segment with at least three fields,
      and its original line is the sum of the third fields of all such segments up to it. */
  lemma PointsAreSums(mappings: string)
    ensures var ps, lines := Points(mappings), Lines(Split(mappings, ';'));
            && |ps| == |MapDeltas(lines)| == |MapRows(lines, 0)|
            && forall k :: 0 <= k < |ps| ==>
                 && ps[k].original == Sum(MapDeltas(lines)[..k + 1])
                 && ps[k].transpiled == MapRows(lines, 0)[k]
  {
    hide Lines, Split, MapPoints, MapDeltas, MapRows, Sum;
    MapIsSums(Lines(Split(mappings, ';')), 0, 0);
  }

  // ---------- The index ----------

  ghost predicate LeastTranspiled(points: seq<Point>, o2t: map<int, nat>) {
    && (forall p :: p in points ==> p.original in o2t && o2t[p.original] <= p.transpiled)
    && (forall o :: o in o2t ==> Point(o, o2t[o]) in points)
  }

  ghost predicate GreatestOriginal(points: seq<Point>, t2o: map<nat, int>) {
    && (forall p :: p in points ==> p.transpiled in t2o && p.original <= t2o[p.transpiled])
    && (forall t :: t in t2o ==> Point(t2o[t], t) in points)
  }

  ghost predicate UpToLine(points: seq<Point>, t: nat) {
    forall p :: p in points ==> p.transpiled <= t
  }

  lemma LeastAdded(points: seq<Point>, o2t: map<int, nat>, p: Point)
    requires LeastTranspiled(points, o2t) && UpToLine(points, p.transpiled)
    ensures LeastTranspiled(points + [p], if p.original in o2t then o2t else o2t[p.original := p.transpiled])
  {
    var all, m := points + [p], if p.original in o2t then o2t else o2t[p.original := p.transpiled];
    forall o | o in m ensures Point(o, m[o]) in all {
      if o in o2t { assert Point(o, o2t[o]) in points; } else { assert all[|points|] == p; }
    }
    if p.original in o2t { assert Point(p.original, o2t[p.original]) in points; }
  }

  lemma GreatestAdded(points: seq<Point>, t2o: map<nat, int>, p: Point)
    requires GreatestOriginal(points, t2o)
    ensures GreatestOriginal(points + [p], if p.transpiled in t2o && p.original <= t2o[p.transpiled] then t2o
                                           else t2o[p.transpiled := p.original])
  {
    var kept := p.transpiled in t2o && p.original <= t2o[p.transpiled];
    var all, m := points + [p], if kept then t2o else t2o[p.transpiled := p.original];
    forall t | t in m ensures Point(m[t], t) in all {
      if kept || t != p.transpiled { assert Point(t2o[t], t) in points; } else { assert all[|points|] == p; }
    }
  }

  /** Recording one more point, not before the line reached so far. */
  method AddPoint(o2t: map<int, nat>, t2o: map<nat, int>, o: int, t: nat, ghost points: seq<Point>)
    returns (o2t': map<int, nat>, t2o': map<nat, int>)
    requires LeastTranspiled(points, o2t) && GreatestOriginal(points, t2o) && UpToLine(points, t)
    ensures LeastTranspiled(points + [Point(o, t)], o2t') && GreatestOriginal(points + [Point(o, t)], t2o')
    ensures UpToLine(points + [Point(o, t)], t)
  {
    LeastAdded(points, o2t, Point(o, t));
    GreatestAdded(points, t2o, Point(o, t));
    hide LeastTranspiled, GreatestOriginal;
    o2t', t2o' := o2t, t2o;
    if o !in o2t {
      o2t' := o2t[o := t];
    }
    if t !in t2o || o > t2o[t] {
      t2o' := t2o[t := o];
    }
  }

  lemma {:induction false} LineSnoc(line: seq<seq<int>>, i: nat, t: nat, o: int)
    requires i < |line|
    ensures LineEnd(line[..i + 1], o) == NextLine(line[i], LineEnd(line[..i], o))
    ensures LinePoints(line[..i + 1], t, o)
            == LinePoints(line[..i], t, o) + SegmentPoint(line[i], t, LineEnd(line[..i], o))
    decreases i
  {
    hide NextLine, SegmentPoint;
    var a, b := line[..i], line[..i + 1];
    assert b[0] == line[0];
    if i == 0 {
      assert b[1..] == [];
    } else {
      LineSnoc(line[1..], i - 1, t, NextLine(line[0], o));
      assert a[1..] == line[1..][..i - 1] && b[1..] == line[1..][..i];
      assert a[0] == line[0];
    }
  }

  lemma LineStart(t: nat, o: int)
    ensures LinePoints([], t, o) == [] && LineEnd([], o) == o
  {
  }

  /** The segments of one transpiled line. */
  method ParseLine(segments: seq<string>, t: nat, o: int, o2t: map<int, nat>, t2o: map<nat, int>,
                   ghost points: seq<Point>)
    returns (o2t': map<int, nat>, t2o': map<nat, int>, originalLine: int)
    requires LeastTranspiled(points, o2t) && GreatestOriginal(points, t2o) && UpToLine(points, t)
    ensures var all := points + LinePoints(Fields(segments), t, o);
            LeastTranspiled(all, o2t') && GreatestOriginal(all, t2o') && UpToLine(all, t)
    ensures originalLine == LineEnd(Fields(segments), o)
  {
    hide LeastTranspiled, GreatestOriginal, UpToLine, Decode, LinePoints, LineEnd;
    o2t', t2o', originalLine := o2t, t2o, o;
    ghost var line := Fields(segments);
    LineStart(t, o);
    assert line[..0] == [] && points + [] == points;
    for i := 0 to |segments|
      invariant originalLine == LineEnd(line[..i], o)
      invariant LeastTranspiled(points + LinePoints(line[..i], t, o), o2t')
      invariant GreatestOriginal(points + LinePoints(line[..i], t, o), t2o')
      invariant UpToLine(points + LinePoints(line[..i], t, o), t)
    {
      LineSnoc(line, i, t, o);
      ghost var before := LinePoints(line[..i], t, o);
      assert before + [] == before;
      if segments[i] == [] {
        DecodeNothing();
        continue;
      }
      var values := DecodeVlq(segments[i]);
      if |values| >= 3 {
        originalLine := originalLine + values[2];
        o2t', t2o' := AddPoint(o2t', t2o', originalLine, t, points + before);
        assert points + before + [Point(originalLine, t)] == points + (before + [Point(originalLine, t)]);
      }
    }
    assert line[..|segments|] == line;
  }

  lemma MapStep(lines: seq<string>, t: nat, o: int)
    requires t < |lines|
    ensures var line := Fields(Split(lines[t], ','));
            MapPoints(Lines(lines)[t..], t, o)
            == LinePoints(line, t, o) + MapPoints(Lines(lines)[t + 1..], t + 1, LineEnd(line, o))
  {
    hide Fields, Split, LinePoints, LineEnd;
    var all := Lines(lines);
    assert all[t..][0] == Fields(Split(lines[t], ',')) && all[t..][1..] == all[t + 1..];
  }

  /** Every original line is mapped to its least transpiled line and every transpiled line to its
      greatest original line, over exactly the points of the map. */
  method ParseMappings(mappings: string) returns (o2t: map<int, nat>, t2o: map<nat, int>)
    ensures LeastTranspiled(Points(mappings), o2t) && GreatestOriginal(Points(mappings), t2o)
  {
    hide LeastTranspiled, GreatestOriginal, UpToLine, Split, MapPoints, LinePoints, LineEnd, Fields;
    o2t, t2o := map[], map[];
    var lines := Split(mappings, ';');
    var originalLine := 0;
    ghost var done: seq<Point> := [];
    NoPoints();
    assert Lines(lines)[0..] == Lines(lines);
    for transpiledLine := 0 to |lines|
      invariant LeastTranspiled(done, o2t) && GreatestOriginal(done, t2o) && UpToLine(done, transpiledLine)
      invariant done + MapPoints(Lines(lines)[transpiledLine..], transpiledLine, originalLine) == Points(mappings)
    {
      MapStep(lines, transpiledLine, originalLine);
      var segments := Split(lines[transpiledLine], ',');
      ghost var mine := LinePoints(Fields(segments), transpiledLine, originalLine);
      o2t, t2o, originalLine := ParseLine(segments, transpiledLine, originalLine, o2t, t2o, done);
      ghost var later := MapPoints(Lines(lines)[transpiledLine + 1..], transpiledLine + 1, originalLine);
      assert done + (mine + later) == (done + mine) + later;
      done := done + mine;
      LaterLine(done, transpiledLine);
    }
    assert Lines(lines)[|lines|..] == [];
    MapOver(|lines|, originalLine);
    assert done + [] == done;
  }

  lemma MapOver(t: nat, o: int)
    ensures MapPoints([], t, o) == []
  {
  }

  lemma NoPoints()
    ensures LeastTranspiled([], map[]) && GreatestOriginal([], map[]) && UpToLine([], 0)
  {
  }

  lemma LaterLine(points: seq<Point>, t: nat)
    requires UpToLine(points, t)
    ensures UpToLine(points, t + 1)
  {
  }

  /** The two directions fit together: going from an original line to transpiled code and back never
      loses lines, and going from a transpiled line back and forth never moves later. */
  lemma ThereAndBack(points: seq<Point>, o2t: map<int, nat>, t2o: map<nat, int>)
    requires LeastTranspiled(points, o2t) && GreatestOriginal(points, t2o)
    ensures forall o :: o in o2t ==> o2t[o] in t2o && o <= t2o[o2t[o]]
    ensures forall t :: t in t2o ==> t2o[t] in o2t && o2t[t2o[t]] <= t
  {
    forall o | o in o2t
      ensures o2t[o] in t2o && o <= t2o[o2t[o]]
    {
      assert Point(o, o2t[o]) in points;
    }
    forall t | t in t2o
      ensures t2o[t] in o2t && o2t[t2o[t]] <= t
    {
      assert Point(t2o[t], t) in points;
    }
  }

  // ---------- Round trip ----------

  function EncodeLine(segments: seq<seq<int>>): string {
    if segments == [] then []
    else Join(seq(|segments|, i requires 0 <= i < |segments| => EncodeAll(segments[i])), ',')
  }

  /** The `mappings` string for lines of segments of field deltas. */
  function EncodeMap(lines: seq<seq<seq<int>>>): string
    requires |lines| >= 1
  {
    Join(seq(|lines|, i requires 0 <= i < |lines| => EncodeLine(lines[i])), ';')
  }

  /** The delta that the decoder sees for the original line. */
  function SeenFields(fields: seq<int>): (seen: seq<int>)
    ensures |seen| == |fields|
  {
    seq(|fields|, i requires 0 <= i < |fields| => Decoded(fields[i]))
  }

  function SeenSegments(segments: seq<seq<int>>): (seen: seq<seq<int>>)
    ensures |seen| == |segments|
  {
    seq(|segments|, i requires 0 <= i < |segments| => SeenFields(segments[i]))
  }

  function SeenLines(lines: seq<seq<seq<int>>>): (seen: seq<seq<seq<int>>>)
    ensures |seen| == |lines|
  {
    seq(|lines|, i requires 0 <= i < |lines| => SeenSegments(lines[i]))
  }

  lemma {:induction false} JoinDigits(parts: seq<string>, sep: char, c: char)
    requires |parts| >= 1 && c != sep && forall i :: 0 <= i < |parts| ==> c !in parts[i]
    ensures c !in Join(parts, sep)
  {
    if |parts| > 1 { JoinDigits(parts[1..], sep, c); }
  }

  lemma NoSeparator(fields: seq<int>, c: char)
    requires c == ',' || c == ';'
    ensures c !in EncodeAll(fields)
  {
    hide IsDigit, EncodeAll;
    EncodedAllDigits(fields);
    NotDigits(c);
  }

  lemma LineSplits(segments: seq<seq<int>>)
    ensures ';' !in EncodeLine(segments)
    ensures Fields(Split(EncodeLine(segments), ',')) == if segments == [] then [[]] else SeenSegments(segments)
  {
    hide EncodeAll, Decode, Decoded;
    if segments == [] {
      DecodeNothing();
      assert Fields([[]]) == [[]];
    } else {
      var parts := seq(|segments|, i requires 0 <= i < |segments| => EncodeAll(segments[i]));
      forall i | 0 <= i < |parts|
        ensures ',' !in parts[i] && ';' !in parts[i] && Decode(parts[i]) == SeenFields(segments[i])
      {
        NoSeparator(segments[i], ',');
        NoSeparator(segments[i], ';');
        DecodeEncoded(segments[i]);
      }
      hide Split, Join;
      SplitJoin(parts, ',');
      JoinDigits(parts, ',', ';');
      assert Fields(parts) == SeenSegments(segments);
    }
  }

  /** An empty line reads as one segment without fields, which adds no point. */
  lemma EmptyLine(t: nat, o: int)
    ensures LinePoints([[]], t, o) == LinePoints([], t, o) && LineEnd([[]], o) == LineEnd([], o)
  {
    var one: seq<seq<int>> := [[]];
    assert one[1..] == [];
  }

  lemma {:induction false} SamePoints(a: seq<seq<seq<int>>>, b: seq<seq<seq<int>>>, t: nat, o: int)
    requires |a| == |b|
    requires forall i :: 0 <= i < |a| ==> a[i] == b[i] || (a[i] == [[]] && b[i] == [])
    ensures MapPoints(a, t, o) == MapPoints(b, t, o)
  {
    if a != [] {
      if a[0] != b[0] { EmptyLine(t, o); }
      SamePoints(a[1..], b[1..], t + 1, LineEnd(a[0], o));
    }
  }

  /** Parsing an encoded map yields the points of the map whose deltas are those the decoder sees. */
  lemma ParsedPoints(lines: seq<seq<seq<int>>>)
    requires |lines| >= 1
    ensures Points(EncodeMap(lines)) == MapPoints(SeenLines(lines), 0, 0)
  {
    hide Split, Join, EncodeLine, Fields, SeenSegments, MapPoints;
    var parts := seq(|lines|, i requires 0 <= i < |lines| => EncodeLine(lines[i]));
    forall i | 0 <= i < |parts|
      ensures ';' !in parts[i]
      ensures Fields(Split(parts[i], ',')) == if lines[i] == [] then [[]] else SeenSegments(lines[i])
      ensures lines[i] == [] ==> SeenSegments(lines[i]) == []
    {
      LineSplits(lines[i]);
      assert |SeenSegments(lines[i])| == |lines[i]|;
    }
    SplitJoin(parts, ';');
    SamePoints(Lines(parts), SeenLines(lines), 0, 0);
  }

  /** Every delta for the original line has magnitude below 2^30. */
  ghost predicate SmallDeltas(lines: seq<seq<seq<int>>>) {
    forall i, j :: 0 <= i < |lines| && 0 <= j < |lines[i]| && |lines[i][j]| >= 3 ==> -TWO30 < lines[i][j][2] < TWO30
  }

  ghost predicate SmallDeltasIn(segments: seq<seq<int>>) {
    forall j :: 0 <= j < |segments| && |segments[j]| >= 3 ==> -TWO30 < segments[j][2] < TWO30
  }

  lemma {:induction false} LinePointsIff(segments: seq<seq<int>>, t: nat, o: int, o': int)
    ensures |LinePoints(SeenSegments(segments), t, o')| == |LinePoints(segments, t, o)|
    ensures o == o' ==>
              (LinePoints(SeenSegments(segments), t, o') == LinePoints(segments, t, o) <==> SmallDeltasIn(segments))
    ensures o == o' && SmallDeltasIn(segments) ==> LineEnd(SeenSegments(segments), o') == LineEnd(segments, o)
  {
    hide Decoded;
    if segments != [] {
      var fields, seen := segments[0], SeenSegments(segments);
      assert seen[1..] == SeenSegments(segments[1..]) && seen[0] == SeenFields(fields);
      LinePointsIff(segments[1..], t, NextLine(fields, o), NextLine(seen[0], o'));
      if |fields| >= 3 { DecodedIff(fields[2]); }
      var a, b := LinePoints(seen, t, o'), LinePoints(segments, t, o);
      assert |fields| < 3 ==> a == LinePoints(seen[1..], t, o') && b == LinePoints(segments[1..], t, o);
      assert |fields| >= 3 ==> a[0] == Point(o' + seen[0][2], t) && b[0] == Point(o + fields[2], t);
      assert |fields| >= 3 ==> a[1..] == LinePoints(seen[1..], t, NextLine(seen[0], o'));
      assert |fields| >= 3 ==> b[1..] == LinePoints(segments[1..], t, NextLine(fields, o));
      assert SmallDeltasIn(segments)
             <==> (|fields| >= 3 ==> -TWO30 < fields[2] < TWO30) && SmallDeltasIn(segments[1..]) by {
        assert forall j :: 1 <= j < |segments| ==> segments[j] == segments[1..][j - 1];
      }
      assert |fields| >= 3 ==> a == [a[0]] + a[1..] && b == [b[0]] + b[1..];
      assert |fields| >= 3 ==> seen[0][2] == Decoded(fields[2]);
    }
  }

  lemma {:induction false} MapPointsIff(lines: seq<seq<seq<int>>>, t: nat, o: int, o': int)
    ensures |MapPoints(SeenLines(lines), t, o')| == |MapPoints(lines, t, o)|
    ensures o == o' ==> (MapPoints(SeenLines(lines), t, o') == MapPoints(lines, t, o) <==> SmallDeltas(lines))
  {
    hide SeenSegments, LinePoints, LineEnd, SmallDeltasIn;
    if lines != [] {
      var seen := SeenLines(lines);
      assert seen[1..] == SeenLines(lines[1..]) && seen[0] == SeenSegments(lines[0]);
      LinePointsIff(lines[0], t, o, o');
      MapPointsIff(lines[1..], t + 1, LineEnd(lines[0], o), LineEnd(seen[0], o'));
      SmallDeltasSplit(lines);
      var a, b := LinePoints(seen[0], t, o'), LinePoints(lines[0], t, o);
      assert MapPoints(seen, t, o')[..|a|] == a && MapPoints(lines, t, o)[..|b|] == b;
      assert MapPoints(seen, t, o')[|a|..] == MapPoints(seen[1..], t + 1, LineEnd(seen[0], o'));
      assert MapPoints(lines, t, o)[|b|..] == MapPoints(lines[1..], t + 1, LineEnd(lines[0], o));
    }
  }

  lemma SmallDeltasSplit(lines: seq<seq<seq<int>>>)
    requires lines != []
    ensures SmallDeltas(lines) <==> SmallDeltasIn(lines[0]) && SmallDeltas(lines[1..])
  {
    assert forall i :: 1 <= i < |lines| ==> lines[i] == lines[1..][i - 1];
  }

  /** For every map: parsing its encoding recovers its points exactly when every delta of the original
      line has magnitude below 2^30. */
  lemma SourceMapRoundTripIff(lines: seq<seq<seq<int>>>)
    requires |lines| >= 1
    ensures Points(EncodeMap(lines)) == MapPoints(lines, 0, 0) <==> SmallDeltas(lines)
  {
    hide Points, EncodeMap, MapPoints, SeenLines, SmallDeltas;
    ParsedPoints(lines);
    MapPointsIff(lines, 0, 0, 0);
  }

  // ---------- Round trip from absolute lines ----------

  /** The points of a map given by the original line of each segment of each transpiled line. */
  function Located(rows: seq<seq<int>>, t: nat): seq<Point> {
    if rows == [] then []
    else seq(|rows[0]|, i requires 0 <= i < |rows[0]| => Point(rows[0][i], t)) + Located(rows[1..], t + 1)
  }

  /** The original lines of all segments, one after the other. */
  function Flat(rows: seq<seq<int>>): seq<int> {
    if rows == [] then [] else rows[0] + Flat(rows[1..])
  }

  /** The difference of each to the one before it, of the first to zero. */
  function Differences(flat: seq<int>): (ds: seq<int>)
    ensures |ds| == |flat|
  {
    seq(|flat|, k requires 0 <= k < |flat| => flat[k] - if k == 0 then 0 else flat[k - 1])
  }

  /** `lines` has a segment for each original line of `rows`, with any column and source, whose third field
      is the difference to the original line of the segment before, across line ends too. */
  ghost predicate DeltaCoded(rows: seq<seq<int>>, lines: seq<seq<seq<int>>>) {
    && |lines| == |rows|
    && (forall i :: 0 <= i < |rows| ==> |lines[i]| == |rows[i]|)
    && (forall i, j :: 0 <= i < |lines| && 0 <= j < |lines[i]| ==> |lines[i][j]| >= 3)
    && MapDeltas(lines) == Differences(Flat(rows))
  }

  lemma {:induction false} Telescopes(flat: seq<int>, k: nat)
    requires k <= |flat|
    ensures Sum(Differences(flat)[..k]) == if k == 0 then 0 else flat[k - 1]
  {
    if k > 0 {
      Telescopes(flat, k - 1);
      assert Differences(flat)[..k][..k - 1] == Differences(flat)[..k - 1];
    }
  }

  lemma {:induction false} FullLine(segments: seq<seq<int>>)
    requires forall j :: 0 <= j < |segments| ==> |segments[j]| >= 3
    ensures |LineDeltas(segments)| == |segments|
  {
    if segments != [] { FullLine(segments[1..]); }
  }

  lemma {:induction false} LocatedAt(rows: seq<seq<int>>, lines: seq<seq<seq<int>>>, t: nat)
    requires |lines| == |rows| && forall i :: 0 <= i < |rows| ==> |lines[i]| == |rows[i]|
    requires forall i, j :: 0 <= i < |lines| && 0 <= j < |lines[i]| ==> |lines[i][j]| >= 3
    ensures |Located(rows, t)| == |Flat(rows)| == |MapRows(lines, t)|
    ensures forall k :: 0 <= k < |Flat(rows)| ==> Located(rows, t)[k] == Point(Flat(rows)[k], MapRows(lines, t)[k])
  {
    hide LineDeltas;
    if rows != [] {
      FullLine(lines[0]);
      LocatedAt(rows[1..], lines[1..], t + 1);
    }
  }

  ghost predicate AllSmall(ds: seq<int>) {
    forall k :: 0 <= k < |ds| ==> -TWO30 < ds[k] < TWO30
  }

  lemma AllSmallConcat(a: seq<int>, b: seq<int>)
    ensures AllSmall(a + b) <==> AllSmall(a) && AllSmall(b)
  {
    assert forall k :: 0 <= k < |a| ==> (a + b)[k] == a[k];
    assert forall k :: 0 <= k < |b| ==> (a + b)[|a| + k] == b[k];
  }

  lemma {:induction false} SmallInIff(segments: seq<seq<int>>)
    ensures SmallDeltasIn(segments) <==> AllSmall(LineDeltas(segments))
  {
    if segments != [] {
      SmallInIff(segments[1..]);
      AllSmallConcat(if |segments[0]| >= 3 then [segments[0][2]] else [], LineDeltas(segments[1..]));
      assert |segments[0]| >= 3 ==> [segments[0][2]][0] == segments[0][2];
      assert forall j :: 1 <= j < |segments| ==> segments[j] == segments[1..][j - 1];
      assert SmallDeltasIn(segments[1..]) ==> forall j :: 1 <= j < |segments| && |segments[j]| >= 3 ==>
               -TWO30 < segments[1..][j - 1][2] < TWO30;
    }
  }

  lemma {:induction false} SmallIff(lines: seq<seq<seq<int>>>)
    ensures SmallDeltas(lines) <==> AllSmall(MapDeltas(lines))
  {
    if lines != [] {
      SmallDeltasSplit(lines);
      hide SmallDeltas, SmallDeltasIn, AllSmall, LineDeltas;
      SmallInIff(lines[0]);
      SmallIff(lines[1..]);
      AllSmallConcat(LineDeltas(lines[0]), MapDeltas(lines[1..]));
    }
  }

  /** For every map given by absolute original lines: parsing its delta coding recovers each segment's
      transpiled and original line exactly when consecutive original lines are less than 2^30 apart. */
  lemma AbsoluteRoundTripIff(rows: seq<seq<int>>, lines: seq<seq<seq<int>>>)
    requires |rows| >= 1 && DeltaCoded(rows, lines)
    ensures Points(EncodeMap(lines)) == Located(rows, 0)
            <==> AllSmall(Differences(Flat(rows)))
  {
    hide Points, EncodeMap, MapPoints, SmallDeltas, MapDeltas, MapRows, Located, Flat, Sum, Differences;
    SourceMapRoundTripIff(lines);
    SmallIff(lines);
    MapIsSums(lines, 0, 0);
    LocatedAt(rows, lines, 0);
    var ps, all := MapPoints(lines, 0, 0), Located(rows, 0);
    forall k | 0 <= k < |ps| ensures ps[k] == all[k] {
      Telescopes(Flat(rows), k + 1);
    }
    assert ps == all;
  }
}
