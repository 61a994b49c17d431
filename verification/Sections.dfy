/** MIME section paths (src/modules/imap/section.rs). A path is the list of 1-based child
    indices from the root of a body structure to one of its leaves. */
module Sections {
  import opened Arithmetic
  import opened Wrappers

  datatype PartInfo = PartInfo(ty: string, subtype: string, disposition: Option<string>, octets: nat)

  /** An attached message keeps its own structure inside, which is not descended into. */
  datatype Body =
    | Multipart(bodies: seq<Body>)
    | Basic(info: PartInfo)
    | Text(info: PartInfo)
    | Message(info: PartInfo, inner: Body)

  type Path = seq<nat>

  datatype Found = Found(path: Path, info: PartInfo)

  // ----- the two leaf tests

  function Lower(c: char): char {
    if 'A' <= c <= 'Z' then c - 'A' + 'a' else c
  }

  predicate EqIgnoreCase(a: string, b: string) {
    |a| == |b| && forall i :: 0 <= i < |a| ==> Lower(a[i]) == Lower(b[i])
  }

  /** ASCII letters compare without their case, which is 32 apart, and nothing else does. */
  lemma EqIgnoreCaseIff(a: string, b: string)
    ensures EqIgnoreCase(a, b) <==>
            && |a| == |b|
            && forall i :: 0 <= i < |a| ==>
                 || a[i] == b[i]
                 || ('A' <= a[i] <= 'Z' && b[i] as int == a[i] as int + 32)
                 || ('A' <= b[i] <= 'Z' && a[i] as int == b[i] as int + 32)
  {
  }

  predicate IsAttachment(info: PartInfo) {
    info.disposition.Some? &&
    (EqIgnoreCase(info.disposition.value, "attachment") || EqIgnoreCase(info.disposition.value, "inline"))
  }

  predicate IsBodyText(info: PartInfo) {
    EqIgnoreCase(info.ty, "TEXT") && (EqIgnoreCase(info.subtype, "PLAIN") || EqIgnoreCase(info.subtype, "HTML"))
  }

  // ----- extraction

  /** The accepted leaves of b in document order, each with its path below `base`. */
  function Extract(b: Body, base: Path, accept: PartInfo -> bool): seq<Found>
    decreases b, if b.Multipart? then |b.bodies| + 1 else 0
  {
    if b.Multipart? then ExtractFrom(b, base, accept, 0)
    else if accept(b.info) then [Found(base, b.info)]
    else []
  }

  function ExtractFrom(b: Body, base: Path, accept: PartInfo -> bool, i: nat): seq<Found>
    requires b.Multipart? && i <= |b.bodies|
    decreases b, |b.bodies| - i
  {
    if i == |b.bodies| then []
    else Extract(b.bodies[i], base + [i + 1], accept) + ExtractFrom(b, base, accept, i + 1)
  }

  /** `recursive_parse_attachments` and `recursive_parse_body`: one traversal, two tests. */
  method RecursiveParse(b: Body, segment: Path, accept: PartInfo -> bool) returns (r: Option<seq<Found>>)
    ensures r == if Extract(b, segment, accept) == [] then None else Some(Extract(b, segment, accept))
    decreases b
  {
    if !b.Multipart? {
      return if accept(b.info) then Some([Found(segment, b.info)]) else None;
    }
    var found := [];
    var i := 0;
    while i < |b.bodies|
      invariant i <= |b.bodies|
      invariant found + ExtractFrom(b, segment, accept, i) == ExtractFrom(b, segment, accept, 0)
    {
      var part := RecursiveParse(b.bodies[i], segment + [i + 1], accept);
      if part.Some? {
        found := found + part.value;
      }
      i := i + 1;
    }
    assert found == Extract(b, segment, accept);
    r := if found == [] then None else Some(found);
  }

  // ----- paths lead back

  /** Follow a path from the root: segment k selects the k-th child of a multipart. */
  function Navigate(b: Body, path: Path): Option<Body>
    decreases |path|
  {
    if path == [] then Some(b)
    else if b.Multipart? && 1 <= path[0] <= |b.bodies| then Navigate(b.bodies[path[0] - 1], path[1..])
    else None
  }

  /** Paths count children from 1, level by level, and end at a part that is no multipart:
      the inside of an attached message has no path. */
  lemma NavigateExact(b: Body, k: nat, rest: Path)
    ensures Navigate(b, []) == Some(b)
    ensures Navigate(b, [k] + rest) ==
            if b.Multipart? && 1 <= k <= |b.bodies| then Navigate(b.bodies[k - 1], rest) else None
  {
    assert ([k] + rest)[1..] == rest;
  }

  predicate LeadsTo(b: Body, path: Path, info: PartInfo) {
    var target := Navigate(b, path);
    target.Some? && !target.value.Multipart? && target.value.info == info
  }

  ghost predicate FoundBelow(b: Body, base: Path, accept: PartInfo -> bool, f: Found) {
    base <= f.path && LeadsTo(b, f.path[|base|..], f.info) && accept(f.info)
  }

  lemma ChildPath(b: Body, base: Path, accept: PartInfo -> bool, i: nat, f: Found)
    requires b.Multipart? && i < |b.bodies|
    ensures FoundBelow(b.bodies[i], base + [i + 1], accept, f) <==>
            FoundBelow(b, base, accept, f) && |f.path| > |base| && f.path[|base|] == i + 1
  {
    if base <= f.path && |f.path| > |base| {
      var rest := f.path[|base|..];
      assert f.path[|base| + 1..] == rest[1..];
      assert base + [i + 1] <= f.path <==> rest[0] == i + 1;
    }
  }

  lemma {:induction false} ExtractExact(b: Body, base: Path, accept: PartInfo -> bool, f: Found)
    ensures f in Extract(b, base, accept) <==> FoundBelow(b, base, accept, f)
    decreases b, if b.Multipart? then |b.bodies| + 1 else 0
  {
    if b.Multipart? {
      ExtractFromExact(b, base, accept, 0, f);
      if FoundBelow(b, base, accept, f) {
        assert f.path[|base|..] != [];
      }
    } else {
      if f in Extract(b, base, accept) {
        assert f.path[|base|..] == [];
      }
      if FoundBelow(b, base, accept, f) {
        assert f.path[|base|..] == [];
        assert f.path == base;
      }
    }
  }

  lemma {:induction false} ExtractFromExact(b: Body, base: Path, accept: PartInfo -> bool, i: nat, f: Found)
    requires b.Multipart? && i <= |b.bodies|
    ensures f in ExtractFrom(b, base, accept, i) <==>
            FoundBelow(b, base, accept, f) && |f.path| > |base| && f.path[|base|] > i
    decreases b, |b.bodies| - i
  {
    if i == |b.bodies| {
      if FoundBelow(b, base, accept, f) && |f.path| > |base| {
        assert f.path[|base|..][0] == f.path[|base|];
      }
    } else {
      ExtractExact(b.bodies[i], base + [i + 1], accept, f);
      ExtractFromExact(b, base, accept, i + 1, f);
      ChildPath(b, base, accept, i, f);
    }
  }

  /** The extractor returns exactly the leaves its test accepts, each with a path that
      navigates back to it, and None exactly when there are none. */
  lemma ExtractionIsExact(b: Body, accept: PartInfo -> bool, path: Path, info: PartInfo)
    ensures Found(path, info) in Extract(b, [], accept) <==> LeadsTo(b, path, info) && accept(info)
  {
    ExtractExact(b, [], accept, Found(path, info));
    assert path[0..] == path;
  }

  /** The attachments of a message: exactly the leaves marked as such, or None. */
  method GetAttachments(b: Body) returns (r: Option<seq<Found>>)
    ensures r.Some? ==> r.value != []
    ensures forall path, info ::
              (r.Some? && Found(path, info) in r.value) <==>
              && LeadsTo(b, path, info)
              && info.disposition.Some?
              && (EqIgnoreCase(info.disposition.value, "attachment") || EqIgnoreCase(info.disposition.value, "inline"))
  {
    r := RecursiveParse(b, [], IsAttachment);
    AllExtracted(b, IsAttachment);
  }

  /** The plain and HTML texts of a message, likewise. */
  method GetBodyParts(b: Body) returns (r: Option<seq<Found>>)
    ensures r.Some? ==> r.value != []
    ensures forall path, info ::
              (r.Some? && Found(path, info) in r.value) <==>
              && LeadsTo(b, path, info)
              && EqIgnoreCase(info.ty, "TEXT")
              && (EqIgnoreCase(info.subtype, "PLAIN") || EqIgnoreCase(info.subtype, "HTML"))
  {
    r := RecursiveParse(b, [], IsBodyText);
    AllExtracted(b, IsBodyText);
  }

  lemma AllExtracted(b: Body, accept: PartInfo -> bool)
    ensures forall path, info :: Found(path, info) in Extract(b, [], accept) <==> LeadsTo(b, path, info) && accept(info)
  {
    forall path, info
      ensures Found(path, info) in Extract(b, [], accept) <==> LeadsTo(b, path, info) && accept(info)
    {
      ExtractionIsExact(b, accept, path, info);
    }
  }

  // ----- document order

  predicate Precedes(p: Path, q: Path)
    decreases |p|
  {
    if q == [] then false
    else if p == [] then true
    else p[0] < q[0] || (p[0] == q[0] && Precedes(p[1..], q[1..]))
  }

  lemma {:induction false} PrecedesBelow(base: Path, p: Path, q: Path)
    requires base <= p && base <= q
    ensures Precedes(p, q) <==> Precedes(p[|base|..], q[|base|..])
    decreases |base|
  {
    if base == [] {
      assert p[0..] == p && q[0..] == q;
    } else {
      PrecedesBelow(base[1..], p[1..], q[1..]);
      assert p[1..][|base| - 1..] == p[|base|..];
      assert q[1..][|base| - 1..] == q[|base|..];
    }
  }

  lemma {:induction false} PrecedesIrreflexive(p: Path)
    ensures !Precedes(p, p)
    decreases |p|
  {
    if p != [] {
      PrecedesIrreflexive(p[1..]);
    }
  }

  ghost predicate InOrder(found: seq<Found>) {
    forall i, j :: 0 <= i < j < |found| ==> Precedes(found[i].path, found[j].path)
  }

  lemma {:induction false} ExtractInOrder(b: Body, base: Path, accept: PartInfo -> bool)
    ensures InOrder(Extract(b, base, accept))
    decreases b, if b.Multipart? then |b.bodies| + 1 else 0
  {
    if b.Multipart? {
      ExtractFromInOrder(b, base, accept, 0);
    }
  }

  lemma {:induction false} ExtractFromInOrder(b: Body, base: Path, accept: PartInfo -> bool, i: nat)
    requires b.Multipart? && i <= |b.bodies|
    ensures InOrder(ExtractFrom(b, base, accept, i))
    decreases b, |b.bodies| - i
  {
    if i < |b.bodies| {
      var first, rest := Extract(b.bodies[i], base + [i + 1], accept), ExtractFrom(b, base, accept, i + 1);
      ExtractInOrder(b.bodies[i], base + [i + 1], accept);
      ExtractFromInOrder(b, base, accept, i + 1);
      forall f, g | f in first && g in rest
        ensures Precedes(f.path, g.path)
      {
        ExtractExact(b.bodies[i], base + [i + 1], accept, f);
        ExtractFromExact(b, base, accept, i + 1, g);
        ChildPath(b, base, accept, i, f);
        PrecedesBelow(base, f.path, g.path);
        assert f.path[|base|..][0] == i + 1 < g.path[|base|..][0];
      }
      InOrderConcat(first, rest);
    }
  }

  lemma InOrderConcat(a: seq<Found>, b: seq<Found>)
    requires InOrder(a) && InOrder(b)
    requires forall f, g :: f in a && g in b ==> Precedes(f.path, g.path)
    ensures InOrder(a + b)
  {
    var c := a + b;
    forall i, j | 0 <= i < j < |c|
      ensures Precedes(c[i].path, c[j].path)
    {
      if i < |a| <= j {
        assert c[i] in a && c[j] in b;
      }
    }
  }

  /** The result lists the leaves in document order without repetition. With
      `ExtractionIsExact` this determines the whole result. */
  lemma ExtractionInOrder(b: Body, accept: PartInfo -> bool, i: nat, j: nat)
    requires i < j < |Extract(b, [], accept)|
    ensures Precedes(Extract(b, [], accept)[i].path, Extract(b, [], accept)[j].path)
    ensures Extract(b, [], accept)[i].path != Extract(b, [], accept)[j].path
  {
    ExtractInOrder(b, [], accept);
    PrecedesIrreflexive(Extract(b, [], accept)[i].path);
  }

  // ----- printed part specifiers

  function Digit(d: nat): char
    requires d < 10
  {
    '0' + d as char
  }

  function Decimal(n: nat): string {
    if n < 10 then [Digit(n)] else Decimal(n / 10) + [Digit(n % 10)]
  }

  /** `Display`: the segments joined by dots, or "1" for a message that is one part. */
  function Print(path: Path): string {
    if path == [] then "1" else Join(path)
  }

  function Join(path: Path): string
    requires path != []
    decreases |path|
  {
    if |path| == 1 then Decimal(path[0]) else Decimal(path[0]) + ['.'] + Join(path[1..])
  }

  /** Reading a specifier back: the part numbers between the dots. */
  function Parse(s: string, number: nat): Path
    decreases |s|
  {
    if s == [] then [number]
    else if s[0] == '.' then [number] + Parse(s[1..], 0)
    else if '0' <= s[0] <= '9' then Parse(s[1..], number * 10 + (s[0] - '0') as nat)
    else []
  }

  /** The printed form is decimal numbers with dots between them. */
  lemma PrintExact(n: nat, m: nat, rest: Path)
    ensures Print([]) == "1"
    ensures Print([n]) == Decimal(n)
    ensures Print([n, m] + rest) == Decimal(n) + "." + Print([m] + rest)
    ensures n < 10 ==> Print([n]) == ["0123456789"[n]]
    ensures n >= 10 ==> Print([n]) == Print([n / 10]) + Print([n % 10])
  {
    assert ([n, m] + rest)[1..] == [m] + rest;
    DigitExact(n % 10);
  }

  lemma DigitExact(d: nat)
    requires d < 10
    ensures Digit(d) == "0123456789"[d]
  {
  }

  lemma {:induction false} ParseDecimal(n: nat, rest: string)
    ensures Parse(Decimal(n) + rest, 0) == Parse(rest, n)
    decreases n
  {
    var last := [Digit(n % 10)];
    assert (last + rest)[1..] == rest;
    if n < 10 {
      assert Decimal(n) + rest == last + rest;
    } else {
      ParseDecimal(n / 10, last + rest);
      assert Decimal(n) + rest == Decimal(n / 10) + (last + rest);
      assert n / 10 * 10 + n % 10 == n;
    }
  }

  lemma {:induction false} ParseJoin(path: Path)
    requires path != []
    ensures Parse(Join(path), 0) == path
    decreases |path|
  {
    if |path| == 1 {
      ParseDecimal(path[0], []);
      assert Decimal(path[0]) + [] == Decimal(path[0]);
    } else {
      var rest := ['.'] + Join(path[1..]);
      ParseDecimal(path[0], rest);
      assert Join(path) == Decimal(path[0]) + rest;
      assert rest[1..] == Join(path[1..]);
      ParseJoin(path[1..]);
    }
  }

  function PartNumbers(path: Path): Path {
    if path == [] then [1] else path
  }

  /** Printing loses nothing: the specifier reads back as the part numbers. */
  lemma PrintRoundTrip(path: Path)
    ensures Parse(Print(path), 0) == PartNumbers(path)
  {
    if path == [] {
      assert Parse("1", 0) == Parse("1"[1..], 1);
    } else {
      ParseJoin(path);
    }
  }

  /** Two parts extracted from one message never print alike. */
  lemma SpecifiersDistinct(b: Body, accept: PartInfo -> bool, i: nat, j: nat)
    requires i < j < |Extract(b, [], accept)|
    ensures Print(Extract(b, [], accept)[i].path) != Print(Extract(b, [], accept)[j].path)
  {
    var found := Extract(b, [], accept);
    ExtractionInOrder(b, accept, i, j);
    ExtractExact(b, [], accept, found[i]);
    ExtractExact(b, [], accept, found[j]);
    assert found[i].path[0..] == found[i].path && found[j].path[0..] == found[j].path;
    PrintRoundTrip(found[i].path);
    PrintRoundTrip(found[j].path);
  }

  // ----- the path sent to the server

  /** `section_path`: the segments cast to 32 bits, or [1]. */
  function SectionPath(path: Path): Path {
    if path == [] then [1] else seq(|path|, i requires 0 <= i < |path| => path[i] % U32)
  }

  /** The printed specifier and the path used to fetch name the same part if and only if
      every segment fits in 32 bits. */
  lemma SectionPathAgreesIff(path: Path)
    ensures SectionPath(path) == Parse(Print(path), 0) <==> forall i :: 0 <= i < |path| ==> path[i] < U32
    ensures path == [] ==> SectionPath(path) == [1]
    ensures path != [] ==> |SectionPath(path)| == |path|
    ensures forall i :: 0 <= i < |path| ==> SectionPath(path)[i] == path[i] % 0x1_0000_0000
  {
    PrintRoundTrip(path);
    forall i | 0 <= i < |path|
      ensures path[i] % U32 == path[i] <==> path[i] < U32
    {
    }
    if forall i :: 0 <= i < |path| ==> path[i] < U32 {
      assert SectionPath(path) == PartNumbers(path);
    } else {
      var i :| 0 <= i < |path| && path[i] >= U32;
      assert SectionPath(path)[i] != path[i];
    }
  }

  predicate NarrowerThan(b: Body, width: nat) {
    b.Multipart? ==> |b.bodies| < width && forall i :: 0 <= i < |b.bodies| ==> NarrowerThan(b.bodies[i], width)
  }

  lemma {:induction false} SegmentsBounded(b: Body, path: Path, width: nat)
    requires NarrowerThan(b, width) && Navigate(b, path).Some?
    ensures forall i :: 0 <= i < |path| ==> path[i] < width
    decreases |path|
  {
    if path != [] {
      SegmentsBounded(b.bodies[path[0] - 1], path[1..], width);
      forall i | 0 <= i < |path|
        ensures path[i] < width
      {
        assert i > 0 ==> path[i] == path[1..][i - 1];
      }
    }
  }

  /** So every extracted part of a message with fewer than 2^32 parts per level is fetched
      under the specifier it is shown with. */
  lemma ExtractedPathsAgree(b: Body, accept: PartInfo -> bool, f: Found)
    requires NarrowerThan(b, U32) && f in Extract(b, [], accept)
    ensures SectionPath(f.path) == Parse(Print(f.path), 0) == PartNumbers(f.path)
  {
    ExtractionIsExact(b, accept, f.path, f.info);
    SegmentsBounded(b, f.path, U32);
    SectionPathAgreesIff(f.path);
    PrintRoundTrip(f.path);
  }
}
