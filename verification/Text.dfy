// Decimal rendering, separators and string order: the parts of Go's fmt, strings and sort
// packages that the identities, addresses and listings of this project rest on.
module Text {

  datatype Option<+T> = None | Some(value: T)

  type Byte = b: int | 0 <= b < 256

  // ---------- decimal numerals ----------

  predicate IsDigit(c: char) {
    '0' <= c <= '9'
  }

  function Digit(d: nat): (c: char)
    requires d < 10
    ensures IsDigit(c) && c as int == '0' as int + d
  {
    ('0' as int + d) as char
  }

  // The verb %d on a value that is not negative.
  function Decimal(n: nat): (s: string)
    ensures |s| > 0
    ensures forall c :: c in s ==> IsDigit(c)
  {
    if n < 10 then [Digit(n)] else Decimal(n / 10) + [Digit(n % 10)]
  }

  // The verb %d on any value.
  function SignedDecimal(n: int): string {
    if n < 0 then "-" + Decimal(-n) else Decimal(n)
  }

  function Numeral(s: string): int {
    if s == "" then 0 else 10 * Numeral(s[..|s| - 1]) + (s[|s| - 1] as int - '0' as int)
  }

  lemma {:induction false} NumeralOfDecimal(n: nat)
    ensures Numeral(Decimal(n)) == n
  {
    if n < 10 {
      assert Decimal(n)[..0] == "";
    } else {
      NumeralOfDecimal(n / 10);
      assert Decimal(n)[..|Decimal(n)| - 1] == Decimal(n / 10);
    }
  }

  // Digits whose value is n, without leading zeros: no other text is like that.
  lemma {:induction false} DecimalIsCanonical(n: nat)
    ensures Numeral(Decimal(n)) == n && (|Decimal(n)| > 1 ==> Decimal(n)[0] != '0')
  {
    NumeralOfDecimal(n);
    if n >= 10 {
      DecimalIsCanonical(n / 10);
      assert Decimal(n)[0] == Decimal(n / 10)[0];
      if n / 10 < 10 {
        assert Decimal(n / 10) == [Digit(n / 10)];
      }
    }
  }

  lemma DecimalInjective(m: nat, n: nat)
    requires Decimal(m) == Decimal(n)
    ensures m == n
  {
    NumeralOfDecimal(m);
    NumeralOfDecimal(n);
  }

  // ---------- separators ----------

  // A separator that the last field does not contain splits that field off unambiguously,
  // whatever the text before it contains.
  lemma SplitAtLast(a: string, x: string, b: string, y: string, sep: char)
    requires a + [sep] + x == b + [sep] + y
    requires sep !in x && sep !in y
    ensures a == b && x == y
  {
    var s, t := a + [sep] + x, b + [sep] + y;
    assert s[|a|] == sep && t[|b|] == sep;
    assert forall i :: |a| < i < |s| ==> s[i] == x[i - |a| - 1];
    assert forall i :: |b| < i < |t| ==> t[i] == y[i - |b| - 1];
    assert a == s[..|a|] && b == t[..|b|];
    assert x == s[|a| + 1..] && y == t[|b| + 1..];
  }

  // The mirror image: a separator that the first field does not contain.
  lemma SplitAtFirst(x: string, a: string, y: string, b: string, sep: char)
    requires x + [sep] + a == y + [sep] + b
    requires sep !in x && sep !in y
    ensures x == y && a == b
  {
    var s, t := x + [sep] + a, y + [sep] + b;
    assert s[|x|] == sep && t[|y|] == sep;
    assert forall i :: 0 <= i < |x| ==> s[i] == x[i];
    assert forall i :: 0 <= i < |y| ==> t[i] == y[i];
    assert x == s[..|x|] && y == t[..|y|];
    assert a == s[|x| + 1..] && b == t[|y| + 1..];
  }

  // ---------- trimming and upper-casing ----------

  // The Latin-1 part of Unicode's White_Space.
  predicate IsSpace(c: char) {
    c == ' ' || '\t' <= c <= '\r' || c as int == 0x85 || c as int == 0xA0
  }

  function TrimLeft(s: string): string {
    if s != "" && IsSpace(s[0]) then TrimLeft(s[1..]) else s
  }

  function TrimRight(s: string): string {
    if s != "" && IsSpace(s[|s| - 1]) then TrimRight(s[..|s| - 1]) else s
  }

  function TrimSpace(s: string): string {
    TrimRight(TrimLeft(s))
  }

  predicate Trimmed(s: string) {
    s == "" || (!IsSpace(s[0]) && !IsSpace(s[|s| - 1]))
  }

  lemma {:induction false} TrimLeftStart(s: string)
    ensures TrimLeft(s) == "" || !IsSpace(TrimLeft(s)[0])
  {
    if s != "" && IsSpace(s[0]) {
      TrimLeftStart(s[1..]);
    }
  }

  lemma {:induction false} TrimRightEnds(s: string)
    ensures TrimRight(s) <= s
    ensures TrimRight(s) == "" || !IsSpace(TrimRight(s)[|TrimRight(s)| - 1])
  {
    if s != "" && IsSpace(s[|s| - 1]) {
      TrimRightEnds(s[..|s| - 1]);
    }
  }

  lemma TrimSpaceTrims(s: string)
    ensures Trimmed(TrimSpace(s))
  {
    TrimLeftStart(s);
    TrimRightEnds(TrimLeft(s));
  }

  lemma TrimSpaceIdempotent(s: string)
    ensures TrimSpace(TrimSpace(s)) == TrimSpace(s)
  {
    TrimSpaceTrims(s);
  }

  predicate AllSpaces(s: string) {
    forall c :: c in s ==> IsSpace(c)
  }

  lemma {:induction false} TrimLeftCuts(s: string) returns (i: nat)
    ensures i <= |s| && TrimLeft(s) == s[i..] && AllSpaces(s[..i])
  {
    if s != "" && IsSpace(s[0]) {
      var j := TrimLeftCuts(s[1..]);
      i := j + 1;
      assert s[..i] == [s[0]] + s[1..][..j];
    } else {
      i := 0;
    }
  }

  lemma {:induction false} TrimRightCuts(s: string)
    ensures TrimRight(s) <= s && AllSpaces(s[|TrimRight(s)|..])
  {
    if s != "" && IsSpace(s[|s| - 1]) {
      var n := |s| - 1;
      TrimRightCuts(s[..n]);
      assert s[|TrimRight(s)|..] == s[..n][|TrimRight(s)|..] + [s[n]];
    }
  }

  // What is cut off are spaces, on both sides, and none is left at either end.
  lemma TrimSpaceCuts(s: string) returns (i: nat, j: nat)
    ensures i <= j <= |s| && TrimSpace(s) == s[i..j] && AllSpaces(s[..i]) && AllSpaces(s[j..]) && Trimmed(s[i..j])
  {
    TrimSpaceTrims(s);
    i := TrimLeftCuts(s);
    TrimRightCuts(s[i..]);
    j := i + |TrimSpace(s)|;
    assert s[i..][|TrimSpace(s)|..] == s[j..];
  }

  function UpperChar(c: char): char {
    if 'a' <= c <= 'z' then (c as int - 32) as char else c
  }

  function ToUpper(s: string): string {
    seq(|s|, i requires 0 <= i < |s| => UpperChar(s[i]))
  }

  // The ASCII letters a to z go up by 32, and nothing else changes.
  lemma ToUpperChars(s: string)
    ensures |ToUpper(s)| == |s|
    ensures forall i :: 0 <= i < |s| ==>
              ToUpper(s)[i] as int == if 97 <= s[i] as int <= 122 then s[i] as int - 32 else s[i] as int
  {
  }

  lemma ToUpperIdempotent(s: string)
    ensures ToUpper(ToUpper(s)) == ToUpper(s)
  {
  }

  // ---------- the order of sort.Strings ----------

  predicate Less(a: string, b: string) {
    b != "" && (a == "" || a[0] < b[0] || (a[0] == b[0] && Less(a[1..], b[1..])))
  }

  // The first place where the two differ decides; a prefix comes first.
  lemma {:induction false} LessIff(a: string, b: string)
    ensures Less(a, b) <==>
            exists k :: 0 <= k <= |a| && k < |b| && a[..k] == b[..k] && (k == |a| || a[k] < b[k])
  {
    if b == "" {
    } else if a == "" || a[0] < b[0] {
      assert a[..0] == b[..0];
    } else {
      LessIff(a[1..], b[1..]);
      if Less(a, b) {
        var k :| 0 <= k <= |a[1..]| && k < |b[1..]| && a[1..][..k] == b[1..][..k] && (k == |a[1..]| || a[1..][k] < b[1..][k]);
        assert a[..k + 1] == [a[0]] + a[1..][..k] && b[..k + 1] == [b[0]] + b[1..][..k];
      }
      if k :| 0 <= k <= |a| && k < |b| && a[..k] == b[..k] && (k == |a| || a[k] < b[k]) {
        assert k > 0 && a[..k][0] == b[..k][0];
        assert a[..k][1..] == a[1..][..k - 1] && b[..k][1..] == b[1..][..k - 1];
      }
    }
  }

  lemma {:induction false} LessTotal(a: string, b: string)
    ensures Less(a, b) || a == b || Less(b, a)
    ensures !(Less(a, b) && Less(b, a))
    ensures !Less(a, a)
  {
    if a != "" && b != "" {
      LessTotal(a[1..], b[1..]);
      LessTotal(a[1..], a[1..]);
      assert a == [a[0]] + a[1..] && b == [b[0]] + b[1..];
    } else if a != "" {
      LessTotal(a[1..], a[1..]);
    }
  }

  lemma {:induction false} LessTransitive(a: string, b: string, c: string)
    requires Less(a, b) && Less(b, c)
    ensures Less(a, c)
  {
    if a != "" && a[0] == b[0] && b[0] == c[0] {
      LessTransitive(a[1..], b[1..], c[1..]);
    }
  }

  ghost predicate StrictlySorted(s: seq<string>) {
    forall i, j :: 0 <= i < j < |s| ==> Less(s[i], s[j])
  }

  // s lists exactly the given keys, each once, in increasing order.
  ghost predicate Lists(s: seq<string>, keys: set<string>) {
    && StrictlySorted(s)
    && |s| == |keys|
    && (forall k :: k in s <==> k in keys)
  }

  lemma {:induction false} ListingUnique(s: seq<string>, t: seq<string>, keys: set<string>)
    requires Lists(s, keys) && Lists(t, keys)
    ensures s == t
    decreases |s|
  {
    if s != [] {
      assert s[0] in s && s[0] in t;
      assert t[0] in t && t[0] in s;
      LessTotal(s[0], t[0]);
      assert s[0] == t[0];
      forall k
        ensures (k in s[1..] <==> k in keys - {s[0]}) && (k in t[1..] <==> k in keys - {s[0]})
      {
        LessTotal(s[0], s[0]);
        assert k in s <==> k == s[0] || k in s[1..];
        assert k in t <==> k == t[0] || k in t[1..];
      }
      ListingUnique(s[1..], t[1..], keys - {s[0]});
      assert s == [s[0]] + s[1..] && t == [t[0]] + t[1..];
    }
  }

  function Insert(x: string, s: seq<string>): seq<string> {
    if s == [] || Less(x, s[0]) then [x] + s else [s[0]] + Insert(x, s[1..])
  }

  function SortStrings(s: seq<string>): seq<string> {
    if s == [] then [] else Insert(s[0], SortStrings(s[1..]))
  }

  lemma {:induction false} InsertSorts(x: string, s: seq<string>)
    requires StrictlySorted(s) && x !in s
    ensures StrictlySorted(Insert(x, s))
    ensures |Insert(x, s)| == |s| + 1
    ensures forall k :: k in Insert(x, s) <==> k == x || k in s
  {
    if s == [] || Less(x, s[0]) {
      forall j | 0 <= j < |s|
        ensures Less(x, s[j])
      {
        if j > 0 { LessTransitive(x, s[0], s[j]); }
      }
    } else {
      InsertSorts(x, s[1..]);
      LessTotal(x, s[0]);
      assert s[0] in s;
      var rest := Insert(x, s[1..]);
      forall j | 0 <= j < |rest|
        ensures Less(s[0], rest[j])
      {
        assert rest[j] in rest;
      }
    }
  }

  lemma {:induction false} SortStringsLists(s: seq<string>, keys: set<string>)
    requires forall i, j :: 0 <= i < j < |s| ==> s[i] != s[j]
    requires forall k :: k in s <==> k in keys
    ensures Lists(SortStrings(s), keys)
    decreases |s|
  {
    if s != [] {
      assert s[0] in s;
      forall k
        ensures k in s[1..] <==> k in keys - {s[0]}
      {
        assert k in s <==> k == s[0] || k in s[1..];
      }
      SortStringsLists(s[1..], keys - {s[0]});
      InsertSorts(s[0], SortStrings(s[1..]));
    } else {
      assert keys == {};
    }
  }
}
