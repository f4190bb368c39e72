/** Shared data model of the desktop shell: application identifiers and the
    per-application window record (types.ts). */
module Types {

  /** A value that may be absent (`null` / `undefined` in the shell). */
  datatype Option<T> = None | Some(value: T)

  /** The closed set of applications the shell knows about. */
  datatype AppID =
    | About | Terminal | Projects | Youtube | Settings | Files | Calculator
    | Editor | Android | Chess | Ludo | Uno | GameCenter | DevStudio
    | Word | Excel | PowerPoint | Odoo

  datatype Point = Point(x: int, y: int)

  datatype Size = Size(width: int, height: int)

  /** One window record, keyed by its application in the shell's window map. */
  datatype WindowState = WindowState(
    id: AppID,
    title: string,
    isOpen: bool,
    isMinimized: bool,
    isMaximized: bool,
    zIndex: int,
    position: Point,
    size: Size)

  function Sub(a: Point, b: Point): Point { Point(a.x - b.x, a.y - b.y) }

  function Add(a: Point, b: Point): Point { Point(a.x + b.x, a.y + b.y) }

  /** JavaScript's `%` on integers: the remainder takes the sign of the dividend. */
  function JsRem(a: int, b: int): int
    requires b > 0
  {
    if a >= 0 then a % b else -((-a) % b)
  }

  /** The index of the first `x` in `s`, or -1 (`indexOf`). */
  function IndexOf<T(==)>(s: seq<T>, x: T): (i: int)
    ensures -1 <= i < |s|
    ensures i >= 0 ==> s[i] == x && forall j :: 0 <= j < i ==> s[j] != x
    ensures i == -1 <==> x !in s
    decreases |s|
  {
    if s == [] then -1
    else if s[0] == x then 0
    else
      var r := IndexOf(s[1..], x);
      if r == -1 then -1 else r + 1
  }

  // `String.prototype.trim`

  /** The characters `String.prototype.trim` removes: white space and line
      terminators, by code point. */
  predicate IsSpace(c: char)
  {
    var n := c as int;
    9 <= n <= 13 || n == 0x20 || n == 0xA0 || n == 0x1680 || 0x2000 <= n <= 0x200A ||
    n == 0x2028 || n == 0x2029 || n == 0x202F || n == 0x205F || n == 0x3000 || n == 0xFEFF
  }

  /** How many white-space characters the text starts with. */
  function Lead(s: string): (n: nat)
    ensures n <= |s|
    decreases |s|
  {
    if s != [] && IsSpace(s[0]) then 1 + Lead(s[1..]) else 0
  }

  /** How many white-space characters the text ends with. */
  function Trail(s: string): (n: nat)
    ensures n <= |s|
    decreases |s|
  {
    if s != [] && IsSpace(s[|s| - 1]) then 1 + Trail(s[..|s| - 1]) else 0
  }

  /** `trim`: the leading, then the trailing white space removed. */
  function Trim(s: string): string
  {
    var t := s[Lead(s)..];
    t[..|t| - Trail(t)]
  }

  lemma {:induction false} LeadFacts(s: string)
    ensures forall k :: 0 <= k < Lead(s) ==> IsSpace(s[k])
    ensures Lead(s) < |s| ==> !IsSpace(s[Lead(s)])
    decreases |s|
  {
    if s != [] && IsSpace(s[0]) {
      LeadFacts(s[1..]);
      forall k | 0 <= k < Lead(s) ensures IsSpace(s[k]) {
        if k > 0 {
          assert s[k] == s[1..][k - 1];
        }
      }
    }
  }

  lemma {:induction false} TrailFacts(s: string)
    ensures forall k :: |s| - Trail(s) <= k < |s| ==> IsSpace(s[k])
    ensures Trail(s) < |s| ==> !IsSpace(s[|s| - 1 - Trail(s)])
    decreases |s|
  {
    if s != [] && IsSpace(s[|s| - 1]) {
      var p := s[..|s| - 1];
      TrailFacts(p);
      forall k | |s| - Trail(s) <= k < |s| ensures IsSpace(s[k]) {
        if k < |s| - 1 {
          assert s[k] == p[k];
        }
      }
      if Trail(s) < |s| {
        assert s[|s| - 1 - Trail(s)] == p[|p| - 1 - Trail(p)];
      }
    }
  }

  /** The trimmed text is the slice of the input after its leading white space. */
  lemma TrimShape(s: string)
    ensures Lead(s) + |Trim(s)| <= |s|
    ensures Trim(s) == s[Lead(s)..Lead(s) + |Trim(s)|]
  {
    var t := s[Lead(s)..];
    assert Trim(s) == t[..|t| - Trail(t)];
  }

  /** Only white space is cut off, on either side of that slice. */
  lemma TrimCutsSpaces(s: string)
    ensures Lead(s) + |Trim(s)| <= |s|
    ensures forall k :: 0 <= k < Lead(s) ==> IsSpace(s[k])
    ensures forall k :: Lead(s) + |Trim(s)| <= k < |s| ==> IsSpace(s[k])
  {
    var i := Lead(s);
    var t := s[i..];
    LeadFacts(s);
    TrailFacts(t);
    forall k | i + |t| - Trail(t) <= k < |s| ensures IsSpace(s[k]) {
      assert s[k] == t[k - i];
    }
  }

  /** It neither starts nor ends with white space. */
  lemma TrimEnds(s: string)
    ensures Trim(s) != [] ==> !IsSpace(Trim(s)[0]) && !IsSpace(Trim(s)[|Trim(s)| - 1])
  {
    var i := Lead(s);
    var t := s[i..];
    LeadFacts(s);
    TrailFacts(t);
    if Trim(s) != [] {
      assert Trim(s)[0] == s[i];
      assert Trim(s)[|Trim(s)| - 1] == t[|t| - 1 - Trail(t)];
    }
  }

  /** Trimming leaves nothing exactly when the input is all white space. */
  lemma TrimBlank(s: string)
    ensures Trim(s) == [] <==> forall k :: 0 <= k < |s| ==> IsSpace(s[k])
  {
    LeadFacts(s);
    TrimShape(s);
    if Trim(s) == [] {
      TrailFacts(s[Lead(s)..]);
    }
  }

  lemma TrimIdempotent(s: string)
    ensures Trim(Trim(s)) == Trim(s)
  {
    var t := Trim(s);
    TrimEnds(s);
    assert Lead(t) == 0;
    assert t[0..] == t;
    assert Trail(t) == 0;
  }
}
