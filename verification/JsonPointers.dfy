/** JSON documents, decimal array indices and JSON pointers as text. */
module JsonPointers {
  import opened Options
  import opened Sequences

  datatype Json =
    | Text(text: string)
    | Scalar(raw: string)
    | Arr(items: seq<Json>)
    | Obj(fields: map<string, Json>)

  type Path = seq<string>

  // ---- Decimal numbers ----

  const MAX_INT := 0x7FFF_FFFF_FFFF_FFFF

  predicate IsDigit(c: char) {
    '0' <= c <= '9'
  }

  predicate AllDigits(s: string) {
    forall i | 0 <= i < |s| :: IsDigit(s[i])
  }

  function Digit(c: char): (d: nat)
    requires IsDigit(c)
    ensures d < 10 && c == '0' + d as char
  {
    c as nat - '0' as nat
  }

  function Number(s: string): nat
    requires AllDigits(s)
  {
    if s == "" then 0
    else
      var front := Number(s[..|s| - 1]);
      10 * front + Digit(s[|s| - 1])
  }

  /** Signed decimal of a machine integer; None for anything else, overflow included. */
  function Atoi(s: string): Option<int> {
    var isSigned := s != "" && (s[0] == '-' || s[0] == '+');
    var digits := if isSigned then s[1..] else s;
    if digits == "" || !AllDigits(digits) then None
    else
      var size: int := Number(digits);
      var n := if s[0] == '-' then -size else size;
      if -MAX_INT - 1 <= n <= MAX_INT then Some(n) else None
  }

  function Itoa(n: nat): (s: string)
    ensures s != "" && AllDigits(s) && Number(s) == n
  {
    var digit := ['0' + (n % 10) as char];
    if n < 10 then
      assert Number(digit[..0]) == 0;
      digit
    else
      var s := Itoa(n / 10) + digit;
      assert s[..|s| - 1] == Itoa(n / 10);
      s
  }

  lemma AtoiOfItoa(n: nat)
    requires n <= MAX_INT
    ensures Atoi(Itoa(n)) == Some(n)
  {
    assert IsDigit(Itoa(n)[0]);
  }

  /** The element an array step names: a canonical decimal inside the array. */
  function Index(length: nat, segment: string): Option<nat> {
    match Atoi(segment)
    case None => None
    case Some(i) => if 0 <= i < length && Itoa(i) == segment then Some(i) else None
  }

  // ---- Locations ----

  /** The location exists; the empty path is the document itself. */
  predicate Exists(doc: Json, path: Path)
    decreases path
  {
    path == [] ||
    match doc
    case Obj(fields) => path[0] in fields && Exists(fields[path[0]], path[1..])
    case Arr(items) =>
      (match Index(|items|, path[0]) case None => false case Some(i) => Exists(items[i], path[1..]))
    case _ => false
  }

  /** The value at a location, or None. */
  function Read(doc: Json, path: Path): (r: Option<Json>)
    ensures r.Some? <==> Exists(doc, path)
    decreases path
  {
    if path == [] then Some(doc)
    else
      match doc
      case Obj(fields) => if path[0] in fields then Read(fields[path[0]], path[1..]) else None
      case Arr(items) =>
        (match Index(|items|, path[0]) case None => None case Some(i) => Read(items[i], path[1..]))
      case _ => None
  }

  lemma {:induction false} PrefixExists(doc: Json, path: Path, n: nat)
    requires Exists(doc, path) && n <= |path|
    ensures Exists(doc, path[..n])
    decreases n
  {
    if n > 0 {
      assert path[..n][1..] == path[1..][..n - 1];
      match doc
      case Obj(fields) => PrefixExists(fields[path[0]], path[1..], n - 1);
      case Arr(items) => PrefixExists(items[Index(|items|, path[0]).value], path[1..], n - 1);
    }
  }

  // ---- Pointer text (sections 3 and 4 of RFC 6901) ----

  function Escape(s: string): string {
    if s == "" then ""
    else (if s[0] == '~' then "~0" else if s[0] == '/' then "~1" else [s[0]]) + Escape(s[1..])
  }

  function Unescape(s: string): Option<string> {
    if s == "" then Some("")
    else if s[0] != '~' then
      (match Unescape(s[1..]) case None => None case Some(rest) => Some([s[0]] + rest))
    else if |s| < 2 || (s[1] != '0' && s[1] != '1') then None
    else
      match Unescape(s[2..])
      case None => None
      case Some(rest) => Some([if s[1] == '0' then '~' else '/'] + rest)
  }

  function Split(s: string): (parts: seq<string>)
    ensures parts != []
  {
    if s == "" then [""]
    else if s[0] == '/' then [""] + Split(s[1..])
    else
      var rest := Split(s[1..]);
      [[s[0]] + rest[0]] + rest[1..]
  }

  function UnescapeAll(parts: seq<string>): Option<Path> {
    if parts == [] then Some([])
    else
      match (Unescape(parts[0]), UnescapeAll(parts[1..]))
      case (Some(first), Some(rest)) => Some([first] + rest)
      case _ => None
  }

  function ParsePointer(pointer: string): Option<Path> {
    if pointer == "" then Some([])
    else if pointer[0] != '/' then None
    else UnescapeAll(Split(pointer[1..]))
  }

  function Encode(path: Path): string {
    if path == [] then "" else "/" + Escape(path[0]) + Encode(path[1..])
  }

  lemma {:induction false} UnescapeEscape(s: string)
    ensures Unescape(Escape(s)) == Some(s)
  {
    if s != "" {
      UnescapeEscape(s[1..]);
      var rest := Escape(s[1..]);
      if s[0] == '~' || s[0] == '/' {
        assert Escape(s)[2..] == rest;
      } else {
        assert Escape(s)[1..] == rest;
      }
      assert s == [s[0]] + s[1..];
    }
  }

  lemma {:induction false} EscapeHasNoSlash(s: string)
    ensures '/' !in Escape(s)
  {
    if s != "" {
      EscapeHasNoSlash(s[1..]);
    }
  }

  lemma {:induction false} SplitFirst(part: string, rest: string)
    requires '/' !in part
    ensures Split(part) == [part]
    ensures Split(part + "/" + rest) == [part] + Split(rest)
  {
    if part == "" {
      assert part + "/" + rest == "/" + rest;
      assert ("/" + rest)[1..] == rest;
    } else {
      SplitFirst(part[1..], rest);
      assert (part + "/" + rest)[1..] == part[1..] + "/" + rest;
      assert part == [part[0]] + part[1..];
    }
  }

  /** A pointer reads back as the path it was written from. */
  lemma {:induction false} PointerRoundTrip(path: Path)
    ensures ParsePointer(Encode(path)) == Some(path)
  {
    if path != [] {
      PointerRoundTrip(path[1..]);
      FirstSegment(path);
      UnescapeEscape(path[0]);
      assert UnescapeAll(Parts(path[1..])) == Some(path[1..]);
      assert ([Escape(path[0])] + Parts(path[1..]))[1..] == Parts(path[1..]);
      assert path == [path[0]] + path[1..];
    }
  }

  function Parts(path: Path): seq<string> {
    if path == [] then [] else Split(Encode(path)[1..])
  }

  /** Splitting the text cuts off the first segment, still escaped. */
  lemma FirstSegment(path: Path)
    requires path != []
    ensures Parts(path) == [Escape(path[0])] + Parts(path[1..])
  {
    EscapeHasNoSlash(path[0]);
    SplitAtSlash(Escape(path[0]), Encode(path[1..]));
    DropHead(Escape(path[0]), Encode(path[1..]));
  }

  lemma DropHead(part: string, rest: string)
    ensures ("/" + part + rest)[1..] == part + rest
  {
  }

  lemma SplitAtSlash(part: string, rest: string)
    requires '/' !in part && (rest == "" || rest[0] == '/')
    ensures Split(part + rest) == [part] + if rest == "" then [] else Split(rest[1..])
  {
    if rest == "" {
      SplitFirst(part, "");
      assert part + rest == part;
      assert [part] + [] == [part];
    } else {
      SplitFirst(part, rest[1..]);
      assert part + rest == part + "/" + rest[1..];
    }
  }

  lemma TailOfConcat<T>(a: seq<T>, b: seq<T>)
    ensures if a == [] then a + b == b else (a + b)[0] == a[0] && (a + b)[1..] == a[1..] + b
  {
  }

  lemma {:induction false} EncodeConcat(a: Path, b: Path)
    ensures Encode(a + b) == Encode(a) + Encode(b)
  {
    TailOfConcat(a, b);
    if a != [] {
      EncodeConcat(a[1..], b);
      Associate("/" + Escape(a[0]), Encode(a[1..]), Encode(b));
    }
  }

  predicate HasPrefix(s: string, prefix: string) {
    |prefix| <= |s| && s[..|prefix|] == prefix
  }

  predicate IsProperPrefix(a: Path, b: Path) {
    |a| < |b| && b[..|a|] == a
  }

  lemma SameUpToSlash(a: string, x: string, b: string, y: string)
    requires '/' !in a && '/' !in b && (y == "" || y[0] == '/')
    requires HasPrefix(b + y, a + "/" + x)
    ensures a == b && y != "" && HasPrefix(y, "/" + x)
  {
    var left, right := a + "/" + x, b + y;
    NoSlashInFront(a, "/" + x);
    NoSlashInFront(b, y);
    assert a + ("/" + x) == left == right[..|left|];
    assert left[|a|] == '/' == right[|a|];
    assert |b| <= |a| < |right| && right[|b|] == y[0];
    assert |a| == |b|;
    assert a == left[..|a|] && b == right[..|a|];
    assert "/" + x == left[|a|..] && y == right[|b|..];
  }

  lemma NoSlashInFront(part: string, rest: string)
    requires '/' !in part
    ensures forall k | 0 <= k < |part| :: (part + rest)[k] != '/'
  {
  }

  /** The textual test for "below" is the structural one. */
  lemma {:induction false} BelowByText(a: Path, b: Path)
    ensures HasPrefix(Encode(b), Encode(a) + "/") <==> IsProperPrefix(a, b)
  {
    if IsProperPrefix(a, b) {
      assert b == a + b[|a|..];
      EncodeConcat(a, b[|a|..]);
      assert Encode(b[|a|..])[0] == '/';
      assert Encode(b)[..|Encode(a)|] == Encode(a);
      assert Encode(b)[..|Encode(a)| + 1] == Encode(a) + "/";
    }
    if HasPrefix(Encode(b), Encode(a) + "/") {
      BelowFromText(a, b);
    }
  }

  lemma {:induction false} BelowFromText(a: Path, b: Path)
    requires HasPrefix(Encode(b), Encode(a) + "/")
    ensures IsProperPrefix(a, b)
  {
    if a != [] {
      FirstSegments(a, b);
      BelowFromText(a[1..], b[1..]);
      assert a == [a[0]] + a[1..] && b[..|a|] == [b[0]] + b[1..][..|a| - 1];
    }
  }

  lemma FirstSegments(a: Path, b: Path)
    requires HasPrefix(Encode(b), Encode(a) + "/") && a != []
    ensures b != [] && a[0] == b[0] && HasPrefix(Encode(b[1..]), Encode(a[1..]) + "/")
  {
    EscapeHasNoSlash(a[0]);
    EscapeHasNoSlash(b[0]);
    FirstParts(Escape(a[0]), Encode(a[1..]) + "/", Escape(b[0]), Encode(b[1..]), Encode(a) + "/", Encode(b));
    UnescapeEscape(a[0]);
    UnescapeEscape(b[0]);
  }

  lemma FirstParts(a: string, x: string, b: string, y: string, left: string, right: string)
    requires '/' !in a && '/' !in b && (y == "" || y[0] == '/') && x != "" && x[0] == '/'
    requires left == "/" + a + x && right == "/" + b + y && HasPrefix(right, left)
    ensures a == b && HasPrefix(y, x)
  {
    assert x == "/" + x[1..];
    assert left == ['/'] + (a + "/" + x[1..]) && right == ['/'] + (b + y);
    DropFirst('/', a + "/" + x[1..], b + y);
    SameUpToSlash(a, x[1..], b, y);
  }

  lemma DropFirst(c: char, prefix: string, s: string)
    requires HasPrefix([c] + s, [c] + prefix)
    ensures HasPrefix(s, prefix)
  {
    assert ([c] + s)[..|prefix| + 1] == [c] + s[..|prefix|];
    assert ([c] + prefix)[1..] == prefix && ([c] + s[..|prefix|])[1..] == s[..|prefix|];
  }

  lemma TrimmedText(a: Path, b: Path)
    requires IsProperPrefix(a, b)
    ensures HasPrefix(Encode(b), Encode(a)) && Encode(b)[|Encode(a)|..] == Encode(b[|a|..])
  {
    assert b == a + b[|a|..];
    EncodeConcat(a, b[|a|..]);
  }
}
