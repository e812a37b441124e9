/** The string functions that the Pod assembly uses, with the laws it relies on. */
module Text {

  // strings.Split with a one-character separator.
  function Split(s: string, sep: char): seq<string> {
    if s == "" then [""]
    else
      var rest := Split(s[1..], sep);
      if s[0] == sep then [""] + rest
      else if rest == [] then [s]
      else [[s[0]] + rest[0]] + rest[1..]
  }

  // strings.Join with a one-character separator.
  function Join(parts: seq<string>, sep: char): string {
    if parts == [] then ""
    else if |parts| == 1 then parts[0]
    else parts[0] + [sep] + Join(parts[1..], sep)
  }

  lemma {:induction false} SplitNotEmpty(s: string, sep: char)
    ensures |Split(s, sep)| >= 1
    decreases |s|
  {
    if s != "" {
      SplitNotEmpty(s[1..], sep);
    }
  }

  // Splitting at one separator more.
  lemma {:induction false} SplitConcat(a: string, b: string, sep: char)
    ensures Split(a + [sep] + b, sep) == Split(a, sep) + Split(b, sep)
    decreases |a|
  {
    var s := a + [sep] + b;
    if a == "" {
      assert s[0] == sep && s[1..] == b;
    } else {
      assert s[0] == a[0] && s[1..] == a[1..] + [sep] + b;
      SplitConcat(a[1..], b, sep);
      SplitNotEmpty(a[1..], sep);
    }
  }

  lemma {:induction false} SplitWhole(s: string, sep: char)
    ensures sep !in s <==> Split(s, sep) == [s]
    ensures |Split(s, sep)| == 1 ==> sep !in s
    decreases |s|
  {
    if s != "" {
      assert s == [s[0]] + s[1..];
      SplitWhole(s[1..], sep);
      SplitNotEmpty(s[1..], sep);
    }
  }

  lemma {:induction false} PartsAreFree(s: string, sep: char)
    ensures forall i :: 0 <= i < |Split(s, sep)| ==> sep !in Split(s, sep)[i]
    decreases |s|
  {
    if s != "" {
      PartsAreFree(s[1..], sep);
    }
  }

  // Splitting undoes joining, for one or more parts free of the separator.
  lemma {:induction false} SplitJoin(parts: seq<string>, sep: char)
    requires parts != [] && forall i :: 0 <= i < |parts| ==> sep !in parts[i]
    ensures Split(Join(parts, sep), sep) == parts
    decreases |parts|
  {
    SplitWhole(parts[0], sep);
    if |parts| > 1 {
      SplitJoin(parts[1..], sep);
      SplitConcat(parts[0], Join(parts[1..], sep), sep);
    } else {
      assert parts == [parts[0]];
    }
  }

  // A character put in front of the first part is in front of the joined string.
  lemma JoinHead(parts: seq<string>, c: char, sep: char)
    requires parts != []
    ensures Join([[c] + parts[0]] + parts[1..], sep) == [c] + Join(parts, sep)
  {
    var longer := [[c] + parts[0]] + parts[1..];
    assert longer[1..] == parts[1..];
    if |parts| > 1 {
      assert [c] + (parts[0] + [sep] + Join(parts[1..], sep)) == [c] + parts[0] + [sep] + Join(parts[1..], sep);
    }
  }

  // Joining undoes splitting.
  lemma {:induction false} JoinSplit(s: string, sep: char)
    ensures Join(Split(s, sep), sep) == s
    decreases |s|
  {
    if s != "" {
      JoinSplit(s[1..], sep);
      SplitNotEmpty(s[1..], sep);
      var rest := Split(s[1..], sep);
      assert s == [s[0]] + s[1..];
      if s[0] == sep {
        assert ([""] + rest)[1..] == rest;
      } else {
        JoinHead(rest, s[0], sep);
      }
    }
  }

  // unicode.IsSpace
  predicate IsSpace(c: char) {
    || '\t' <= c <= '\r' || c == ' ' || c == '\U{85}' || c == '\U{A0}' || c == '\U{1680}'
    || '\U{2000}' <= c <= '\U{200A}' || c == '\U{2028}' || c == '\U{2029}'
    || c == '\U{202F}' || c == '\U{205F}' || c == '\U{3000}'
  }

  const SPACES := "\t\n\U{0B}\U{0C}\r \U{85}\U{A0}\U{1680}" +
    "\U{2000}\U{2001}\U{2002}\U{2003}\U{2004}\U{2005}\U{2006}\U{2007}\U{2008}\U{2009}\U{200A}" +
    "\U{2028}\U{2029}\U{202F}\U{205F}\U{3000}"

  // The white space of Unicode, one by one.
  lemma SpacesAre(c: char)
    ensures IsSpace(c) <==> c in SPACES
  {
    assert SPACES[0] == '\t' && SPACES[1] == '\n' && SPACES[2] == '\U{0B}' && SPACES[3] == '\U{0C}' && SPACES[4] == '\r';
    assert SPACES[5] == ' ' && SPACES[6] == '\U{85}' && SPACES[7] == '\U{A0}' && SPACES[8] == '\U{1680}';
    assert SPACES[9] == '\U{2000}' && SPACES[10] == '\U{2001}' && SPACES[11] == '\U{2002}' && SPACES[12] == '\U{2003}';
    assert SPACES[13] == '\U{2004}' && SPACES[14] == '\U{2005}' && SPACES[15] == '\U{2006}' && SPACES[16] == '\U{2007}';
    assert SPACES[17] == '\U{2008}' && SPACES[18] == '\U{2009}' && SPACES[19] == '\U{200A}';
    assert SPACES[20] == '\U{2028}' && SPACES[21] == '\U{2029}' && SPACES[22] == '\U{202F}' && SPACES[23] == '\U{205F}';
    assert SPACES[24] == '\U{3000}' && |SPACES| == 25;
  }

  function TrimLeft(s: string): string {
    if s != "" && IsSpace(s[0]) then TrimLeft(s[1..]) else s
  }

  function TrimRight(s: string): string {
    if s != "" && IsSpace(s[|s| - 1]) then TrimRight(s[..|s| - 1]) else s
  }

  // strings.TrimSpace
  function Trim(s: string): string { TrimRight(TrimLeft(s)) }

  // s neither starts nor ends with a space.
  predicate Trimmed(s: string) {
    s == "" || (!IsSpace(s[0]) && !IsSpace(s[|s| - 1]))
  }

  // t is s without its first k characters, all spaces.
  ghost predicate SpacesBefore(s: string, t: string, k: nat) {
    k <= |s| && t == s[k..] && forall i :: 0 <= i < k ==> IsSpace(s[i])
  }

  lemma {:induction false} TrimLeftStart(s: string) returns (k: nat)
    ensures TrimLeft(s) == "" || !IsSpace(TrimLeft(s)[0])
    ensures SpacesBefore(s, TrimLeft(s), k)
    decreases |s|
  {
    k := 0;
    if s != "" && IsSpace(s[0]) {
      var rest := s[1..];
      k := TrimLeftStart(rest);
      assert rest[k..] == s[k + 1..];
      forall i | 0 <= i < k + 1 ensures IsSpace(s[i]) {
        if i > 0 {
          assert s[i] == rest[i - 1];
        }
      }
      k := k + 1;
    } else {
      assert s[0..] == s;
    }
  }

  lemma {:induction false} TrimRightEnd(s: string)
    ensures TrimRight(s) == "" || !IsSpace(TrimRight(s)[|TrimRight(s)| - 1])
    ensures TrimRight(s) <= s
    ensures forall i :: |TrimRight(s)| <= i < |s| ==> IsSpace(s[i])
    decreases |s|
  {
    if s != "" && IsSpace(s[|s| - 1]) {
      TrimRightEnd(s[..|s| - 1]);
      var t := s[..|s| - 1];
      forall i | |TrimRight(s)| <= i < |s| ensures IsSpace(s[i]) {
        if i < |t| {
          assert s[i] == t[i];
        }
      }
    }
  }

  lemma TrimTrims(s: string)
    ensures Trimmed(Trim(s))
    ensures Trimmed(s) ==> Trim(s) == s
  {
    var k := TrimLeftStart(s);
    var t := TrimLeft(s);
    TrimRightEnd(t);
    var r := TrimRight(t);
    assert r != "" ==> r[0] == t[0];
    assert Trimmed(s) ==> t == s && r == s;
  }

  // Trimming removes spaces at both ends, all of them, and nothing else.
  lemma TrimIsExact(s: string) returns (j: nat, k: nat)
    ensures j <= k <= |s| && Trim(s) == s[j..k] && Trimmed(Trim(s))
    ensures forall i :: 0 <= i < j || k <= i < |s| ==> IsSpace(s[i])
  {
    TrimTrims(s);
    var t := TrimLeft(s);
    j := TrimLeftStart(s);
    k := TrimEnd(s, j, t);
  }

  lemma TrimEnd(s: string, j: nat, t: string) returns (k: nat)
    requires j <= |s| && t == s[j..]
    ensures j <= k <= |s| && TrimRight(t) == s[j..k]
    ensures forall i :: k <= i < |s| ==> IsSpace(s[i])
  {
    TrimRightEnd(t);
    var n := |TrimRight(t)|;
    k := j + n;
    assert t[..n] == s[j..k];
    forall i | k <= i < |s| ensures IsSpace(s[i]) {
      assert IsSpace(t[i - j]);
    }
  }

  // fmt.Sprintf("%d", n)
  function Decimal(n: nat): string {
    if n < 10 then [DigitChar(n)] else Decimal(n / 10) + [DigitChar(n % 10)]
  }

  function DigitChar(d: nat): char
    requires d < 10
  {
    "0123456789"[d]
  }

  function DigitValue(c: char): nat {
    if '0' <= c <= '9' then (c as int) - ('0' as int) else 0
  }

  function Number(s: string): nat {
    if s == "" then 0 else 10 * Number(s[..|s| - 1]) + DigitValue(s[|s| - 1])
  }

  lemma DigitRoundTrip(d: nat)
    requires d < 10
    ensures DigitValue(DigitChar(d)) == d
  {
  }

  lemma {:induction false} NumberOfDecimal(n: nat)
    ensures Number(Decimal(n)) == n
    decreases n
  {
    DigitRoundTrip(n % 10);
    if n >= 10 {
      NumberOfDecimal(n / 10);
      var s := Decimal(n);
      assert s[..|s| - 1] == Decimal(n / 10);
    } else {
      var s := Decimal(n);
      assert s[..|s| - 1] == "";
      assert Number("") == 0;
    }
  }

  // Different numbers have different numerals.
  lemma DecimalInjective(m: nat, n: nat)
    requires Decimal(m) == Decimal(n)
    ensures m == n
  {
    NumberOfDecimal(m);
    NumberOfDecimal(n);
  }
}
