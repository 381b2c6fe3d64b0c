// Shared vocabulary: optional values, the closed set of job statuses, DynamoDB
// attribute values, and the Python string operations the core relies on
// (strip, split, join, lower, whitespace tokens, str() of an integer).

module Common {

  datatype Option<T> = None | Some(value: T)

  /** The Python exceptions whose kind decides a branch somewhere in the core. */
  datatype Exception =
    | ValueError(message: string)
    | ClientError(code: string)
    | TypeError
    | AttributeError
    | KeyError
    | OtherException(name: string)
    | HttpException(statusCode: int, detail: string)

  /** A Python call that either returns a value or raises. */
  datatype Result<T> = Ok(value: T) | Raised(exc: Exception)

  /** The five status strings the code ever writes to a video record. */
  datatype Status = Uploaded | Processing | Completed | Error | Failed

  function StatusName(st: Status): string
  {
    match st
    case Uploaded => "uploaded"
    case Processing => "processing"
    case Completed => "completed"
    case Error => "error"
    case Failed => "failed"
  }

  function ParseStatus(s: string): (r: Option<Status>)
    ensures r.Some? ==> StatusName(r.value) == s
  {
    if s == "uploaded" then Some(Uploaded)
    else if s == "processing" then Some(Processing)
    else if s == "completed" then Some(Completed)
    else if s == "error" then Some(Error)
    else if s == "failed" then Some(Failed)
    else None
  }

  /** The status enum round-trips through its string form, and distinct
      statuses have distinct names. */
  lemma StatusNameRoundTrip(st: Status, other: Status)
    ensures ParseStatus(StatusName(st)) == Some(st)
    ensures StatusName(st) == StatusName(other) ==> st == other
  {
  }

  /** A DynamoDB attribute value: the string (S) and number (N) types the core stores. */
  datatype AttrValue = S(s: string) | N(n: int)

  /** A DynamoDB item: attribute name to value. */
  type Item = map<string, AttrValue>

  /** Python truthiness of an attribute value. */
  predicate Truthy(v: AttrValue)
  {
    match v
    case S(s) => s != ""
    case N(n) => n != 0
  }

  /** `d.get(k)` on an item. */
  function Get(item: Item, k: string): Option<AttrValue>
  {
    if k in item then Some(item[k]) else None
  }

  /** Python truthiness of `d.get(k)`. */
  predicate TruthyAt(item: Item, k: string)
  {
    k in item && Truthy(item[k])
  }

  /** Python `str(v)` of an attribute value as used in an f-string. */
  function Render(v: AttrValue): string
  {
    match v
    case S(s) => s
    case N(n) => IntToDecimal(n)
  }

  function DigitChar(d: nat): char
    requires d < 10
  {
    "0123456789"[d]
  }

  function NatToDecimal(n: nat): (r: string)
    ensures |r| >= 1
    ensures forall i :: 0 <= i < |r| ==> '0' <= r[i] <= '9'
    decreases n
  {
    if n < 10 then [DigitChar(n)] else NatToDecimal(n / 10) + [DigitChar(n % 10)]
  }

  /** Python `str(n)` for an integer. */
  function IntToDecimal(n: int): (r: string)
    ensures |r| >= 1
  {
    if n < 0 then "-" + NatToDecimal(-n) else NatToDecimal(n)
  }

  // ---------------------------------------------------------------------------
  // Characters and strings

  /** Python's `str.isspace` (and the regular-expression class `\s` on `str`). */
  predicate IsSpace(c: char)
  {
    c in SpaceChars
  }

  /** Every character for which Python's `str.isspace` holds. */
  const SpaceChars: string :=
    " \t\n\U{0B}\U{0C}\r\U{1C}\U{1D}\U{1E}\U{1F}\U{85}\U{A0}\U{1680}"
    + "\U{2000}\U{2001}\U{2002}\U{2003}\U{2004}\U{2005}\U{2006}\U{2007}\U{2008}\U{2009}\U{200A}"
    + "\U{2028}\U{2029}\U{202F}\U{205F}\U{3000}"

  /** No printable ASCII character is white space. */
  lemma PrintableIsNotSpace(c: char)
    requires '!' <= c <= '~'
    ensures !IsSpace(c)
  {
  }

  /** ASCII lower-casing of one character. */
  function LowerChar(c: char): char
  {
    if 'A' <= c <= 'Z' then (c as int + 32) as char else c
  }

  function Lower(s: string): (r: string)
    ensures |r| == |s|
    ensures forall i :: 0 <= i < |s| ==> r[i] == LowerChar(s[i])
  {
    if s == [] then [] else [LowerChar(s[0])] + Lower(s[1..])
  }

  /** `needle in hay` for strings. */
  predicate Contains(hay: string, needle: string)
    decreases |hay|
  {
    needle <= hay || (hay != [] && Contains(hay[1..], needle))
  }

  /** `s.lstrip()` */
  function StripLeft(s: string): (r: string)
    ensures |r| <= |s| && r == s[|s| - |r|..]
    ensures r != [] ==> !IsSpace(r[0])
    ensures forall i :: 0 <= i < |s| - |r| ==> IsSpace(s[i])
  {
    if s != [] && IsSpace(s[0]) then StripLeft(s[1..]) else s
  }

  /** `s.rstrip()` */
  function StripRight(s: string): (r: string)
    ensures |r| <= |s| && r == s[..|r|]
    ensures r != [] ==> !IsSpace(r[|r| - 1])
    ensures forall i :: |r| <= i < |s| ==> IsSpace(s[i])
  {
    if s != [] && IsSpace(s[|s| - 1]) then
      PrefixOfInit(s, StripRight(s[..|s| - 1]));
      StripRight(s[..|s| - 1])
    else s
  }

  lemma PrefixOfInit(s: string, r: string)
    requires s != [] && |r| <= |s| - 1 && r == s[..|s| - 1][..|r|]
    ensures r == s[..|r|]
    ensures forall i :: |r| <= i < |s| - 1 ==> s[i] == s[..|s| - 1][i]
  {
  }

  /** `s.strip()` */
  function Strip(s: string): (r: string)
    ensures r != [] ==> !IsSpace(r[0]) && !IsSpace(r[|r| - 1])
    ensures |r| <= |s|
  {
    StripRight(StripLeft(s))
  }

  predicate AllSpace(s: string)
  {
    forall i :: 0 <= i < |s| ==> IsSpace(s[i])
  }

  lemma StripLeftEmptyIffAllSpace(s: string)
    ensures StripLeft(s) == [] <==> AllSpace(s)
  {
    var r := StripLeft(s);
    if r != [] {
      assert r[0] == s[|s| - |r|];
    }
  }

  /** `s.strip()` is empty exactly when `s` is all white space. */
  lemma StripEmptyIffAllSpace(s: string)
    ensures Strip(s) == [] <==> AllSpace(s)
  {
    StripLeftEmptyIffAllSpace(s);
    var l := StripLeft(s);
    if l != [] {
      assert !IsSpace(l[0]);
      var r := StripRight(l);
    }
  }

  /** A string with no leading or trailing white space is its own strip. */
  lemma StripOfStripped(s: string)
    requires s != [] ==> !IsSpace(s[0]) && !IsSpace(s[|s| - 1])
    ensures Strip(s) == s
  {
  }

  lemma StripLeftOfNonSpace(s: string)
    requires s != [] && !IsSpace(s[0])
    ensures StripLeft(s) == s
  {
  }

  lemma StripRightOfNonSpace(s: string)
    requires s != [] && !IsSpace(s[|s| - 1])
    ensures StripRight(s) == s
  {
  }

  lemma StripLeftSkipsSpace(s: string)
    ensures StripLeft(" " + s) == StripLeft(s)
  {
    ConsTail(' ', s);
    StripLeftOfSpace(" " + s);
  }

  lemma StripLeftOfSpace(s: string)
    requires s != [] && IsSpace(s[0])
    ensures StripLeft(s) == StripLeft(s[1..])
  {
  }

  lemma ConsTail<T>(x: T, s: seq<T>)
    ensures ([x] + s)[0] == x && ([x] + s)[1..] == s
  {
  }

  lemma StripRightSkipsSpace(s: string)
    ensures StripRight(s + " ") == StripRight(s)
  {
    assert (s + " ")[..|s|] == s;
  }

  /** Sequence concatenation cancels on the left. */
  lemma PrefixCancel(p: string, a: string, b: string)
    ensures p + a == p + b ==> a == b
  {
    if p + a == p + b {
      assert a == (p + a)[|p|..];
      assert b == (p + b)[|p|..];
    }
  }

  /** The text before the first occurrence of `c` (all of `s` when `c` is absent). */
  function TakeUntil(s: string, c: char): (r: string)
    ensures r <= s && c !in r
    ensures |r| < |s| ==> s[|r|] == c
    ensures c !in s ==> r == s
  {
    if s == [] then [] else if s[0] == c then [] else [s[0]] + TakeUntil(s[1..], c)
  }

  /** The text after the first occurrence of `c`. */
  function DropThrough(s: string, c: char): (r: string)
    requires c in s
    ensures |r| < |s|
  {
    if s[0] == c then s[1..] else DropThrough(s[1..], c)
  }

  /** The text is what precedes the first `c`, then `c`, then what follows. */
  lemma {:induction false} DropThroughSplits(s: string, c: char)
    requires c in s
    ensures s == TakeUntil(s, c) + [c] + DropThrough(s, c)
  {
    if s[0] != c {
      DropThroughSplits(s[1..], c);
      assert s == [s[0]] + s[1..];
    }
  }

  lemma {:induction false} TakeUntilConcat(a: string, c: char, b: string)
    requires c !in a
    ensures TakeUntil(a + [c] + b, c) == a
  {
    if a != [] {
      assert (a + [c] + b)[1..] == a[1..] + [c] + b;
      TakeUntilConcat(a[1..], c, b);
    } else {
      assert (a + [c] + b)[0] == c;
    }
  }

  /** The position of the last `c` in `s`, or -1: Python `s.rfind(c)`. */
  function LastIndex(s: string, c: char): int
  {
    if s == [] then -1 else if s[|s| - 1] == c then |s| - 1 else LastIndex(s[..|s| - 1], c)
  }

  /** When `c` does not occur in `v`, the last `c` of `o + [c] + v` is the one
      between them, so `o` and `v` can be read back from the joined string. */
  lemma {:induction false} LastIndexAfter(o: string, c: char, v: string)
    requires c !in v
    ensures LastIndex(o + [c] + v, c) == |o|
    decreases |v|
  {
    var s := o + [c] + v;
    if v != [] {
      assert s[..|s| - 1] == o + [c] + v[..|v| - 1];
      assert s[|s| - 1] == v[|v| - 1];
      LastIndexAfter(o, c, v[..|v| - 1]);
    } else {
      assert s[|s| - 1] == c;
    }
  }

  /** Python `s.split(c)` for a one-character separator. */
  function SplitOn(s: string, c: char): (r: seq<string>)
    ensures |r| >= 1
    decreases |s|
  {
    if c in s then [TakeUntil(s, c)] + SplitOn(DropThrough(s, c), c) else [s]
  }

  /** The first piece of `s.split(c)` is what precedes the first `c`. */
  lemma SplitOnFirst(s: string, c: char)
    ensures SplitOn(s, c)[0] == TakeUntil(s, c)
  {
  }

  lemma {:induction false} DropThroughConcat(a: string, c: char, b: string)
    ensures DropThrough(a + [c] + b, c) == if c in a then DropThrough(a, c) + [c] + b else b
    decreases |a|
  {
    var s := a + [c] + b;
    if a == [] {
      assert s[0] == c && s[1..] == b;
    } else {
      assert s[0] == a[0] && s[1..] == a[1..] + [c] + b;
      if a[0] != c {
        DropThroughConcat(a[1..], c, b);
        assert c in a <==> c in a[1..];
      }
    }
  }

  lemma SplitOnLastOfRest(s: string, c: char, rest: string)
    requires c in s && DropThrough(s, c) == rest
    ensures var r := SplitOn(s, c); var p := SplitOn(rest, c); r[|r| - 1] == p[|p| - 1]
  {
    var p := SplitOn(rest, c);
    assert SplitOn(s, c) == [TakeUntil(s, c)] + p;
    LastOfConcat([TakeUntil(s, c)], p);
  }

  /** The last piece of `s.split(c)` holds no `c`. */
  lemma {:induction false} SplitOnLastHasNo(s: string, c: char)
    ensures var r := SplitOn(s, c); c !in r[|r| - 1]
    decreases |s|
  {
    if c in s {
      var rest := DropThrough(s, c);
      assert |rest| < |s|;
      SplitOnLastHasNo(rest, c);
      SplitOnLastOfRest(s, c, rest);
    } else {
      SplitOnAbsent(s, c);
    }
  }

  lemma SplitOnAbsent(s: string, c: char)
    requires c !in s
    ensures SplitOn(s, c) == [s]
  {
  }

  lemma LastOfConcat<T>(a: seq<T>, b: seq<T>)
    requires b != []
    ensures (a + b)[|a + b| - 1] == b[|b| - 1]
  {
  }

  /** The last piece of `s.split(c)` is what follows the last `c`. */
  lemma {:induction false} SplitOnLast(a: string, c: char, b: string)
    requires c !in b
    ensures var r := SplitOn(a + [c] + b, c); r[|r| - 1] == b
    decreases |a|, 1
  {
    if c in a {
      SplitOnLastStep(a, c, b);
    } else {
      SplitOnLastBase(a, c, b);
    }
  }

  lemma {:induction false} SplitOnLastStep(a: string, c: char, b: string)
    requires c in a && c !in b
    ensures var r := SplitOn(a + [c] + b, c); r[|r| - 1] == b
    decreases |a|, 0
  {
    var s := a + [c] + b;
    assert s[|a|] == c;
    DropThroughConcat(a, c, b);
    var d := DropThrough(a, c);
    assert |d| < |a|;
    SplitOnLast(d, c, b);
    SplitOnLastOfRest(s, c, d + [c] + b);
  }

  lemma SplitOnLastBase(a: string, c: char, b: string)
    requires c !in a && c !in b
    ensures var r := SplitOn(a + [c] + b, c); r[|r| - 1] == b
  {
    var s := a + [c] + b;
    assert s[|a|] == c;
    DropThroughConcat(a, c, b);
    SplitOnLastOfRest(s, c, b);
    SplitOnAbsent(b, c);
  }

  /** `sep.join(parts)` */
  function Join(sep: string, parts: seq<string>): string
  {
    if parts == [] then "" else if |parts| == 1 then parts[0] else parts[0] + sep + Join(sep, parts[1..])
  }

  lemma TakeDrop<T>(s: seq<T>, k: nat)
    requires k <= |s|
    ensures s[..k] + s[k..] == s
  {
  }

  lemma Singleton<T>(s: seq<T>)
    requires |s| == 1
    ensures s == [s[0]]
  {
  }

  lemma HeadTail<T>(s: seq<T>)
    requires s != []
    ensures [s[0]] + s[1..] == s
  {
  }

  lemma JoinCons(sep: string, parts: seq<string>)
    requires |parts| >= 2
    ensures Join(sep, parts) == parts[0] + sep + Join(sep, parts[1..])
  {
  }

  lemma {:induction false} JoinSplitOn(s: string, c: char)
    ensures Join([c], SplitOn(s, c)) == s
    decreases |s|
  {
    if c in s {
      var rest := DropThrough(s, c);
      DropThroughSplits(s, c);
      JoinSplitOn(rest, c);
      assert SplitOn(s, c)[1..] == SplitOn(rest, c);
    }
  }

  /** Splitting what was joined on `c` gives the pieces back, when none of
      them holds `c`. */
  lemma {:induction false} SplitOnJoin(parts: seq<string>, c: char)
    requires parts != []
    requires forall i :: 0 <= i < |parts| ==> c !in parts[i]
    ensures SplitOn(Join([c], parts), c) == parts
    decreases |parts|
  {
    if |parts| > 1 {
      var rest := Join([c], parts[1..]);
      JoinCons([c], parts);
      SplitOnCons(Join([c], parts), c, parts[0], rest);
      SplitOnJoin(parts[1..], c);
      HeadTail(parts);
    }
  }

  lemma SplitOnCons(s: string, c: char, head: string, rest: string)
    requires s == head + [c] + rest && c !in head
    ensures SplitOn(s, c) == [head] + SplitOn(rest, c)
  {
    assert s[|head|] == c;
    TakeUntilConcat(head, c, rest);
    DropThroughConcat(head, c, rest);
  }

  /** No element occurs twice. */
  predicate Distinct<T(==)>(s: seq<T>)
  {
    forall i, j :: 0 <= i < j < |s| ==> s[i] != s[j]
  }

  /** The tail of a duplicate-free sequence is duplicate-free and lacks its
      head. */
  lemma DistinctTail<T>(s: seq<T>)
    requires s != [] && Distinct(s)
    ensures Distinct(s[1..]) && s[0] !in s[1..]
  {
    forall i, j | 0 <= i < j < |s| - 1 ensures s[1..][i] != s[1..][j] {
      assert s[1..][i] == s[i + 1] && s[1..][j] == s[j + 1];
    }
  }

  /** In a duplicate-free sequence, an element is not among those before it. */
  lemma LaterNotInPrefix<T>(s: seq<T>, k: nat, j: nat)
    requires Distinct(s) && k <= j < |s|
    ensures s[j] !in s[..k]
  {
    forall m | 0 <= m < k ensures s[..k][m] != s[j] {
      assert s[..k][m] == s[m];
    }
  }

  function Min(a: int, b: int): int
  {
    if a <= b then a else b
  }

  function Max(a: int, b: int): int
  {
    if a >= b then a else b
  }

  /** A token of `s.split()`: non-empty, with no white space. */
  predicate IsToken(w: string)
  {
    w != [] && forall j :: 0 <= j < |w| ==> !IsSpace(w[j])
  }

  lemma TokensCons(w: string, rest: seq<string>)
    requires IsToken(w) && forall i :: 0 <= i < |rest| ==> IsToken(rest[i])
    ensures forall i :: 0 <= i < |[w] + rest| ==> IsToken(([w] + rest)[i])
  {
  }

  /** The white-space separated tokens of `s`: Python `s.split()`. */
  function Words(s: string): (r: seq<string>)
    ensures forall i :: 0 <= i < |r| ==> IsToken(r[i])
    decreases |s|
  {
    var t := StripLeft(s);
    if t == [] then [] else
      var w := Word(t);
      TokensCons(w, Words(t[|w|..]));
      [w] + Words(t[|w|..])
  }

  /** The leading run of non-space characters. */
  function Word(s: string): (r: string)
    ensures r <= s
    ensures forall j :: 0 <= j < |r| ==> !IsSpace(r[j])
    ensures |r| < |s| ==> IsSpace(s[|r|])
    ensures s != [] && !IsSpace(s[0]) ==> r != []
  {
    if s == [] || IsSpace(s[0]) then [] else [s[0]] + Word(s[1..])
  }
}
