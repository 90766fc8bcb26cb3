/** Python string behaviour the rest of the model relies on: `'\n'.join`,
    `str.split('\n')` and the decimal rendering of an integer in an f-string. */
module Text {

  datatype Option<T> = None | Some(value: T)

  /** `'\n'.join(parts)`. */
  function Join(parts: seq<string>): string
  {
    if |parts| == 0 then ""
    else if |parts| == 1 then parts[0]
    else parts[0] + "\n" + Join(parts[1..])
  }

  /** `s.split('\n')`: never empty, and the empty string splits to `[""]`. */
  function Lines(s: string): (r: seq<string>)
    ensures |r| >= 1
  {
    if |s| == 0 then [""]
    else if s[0] == '\n' then [""] + Lines(s[1..])
    else
      var rest := Lines(s[1..]);
      [[s[0]] + rest[0]] + rest[1..]
  }

  /** The lines of every part, one part after the other. */
  function LinesOfEach(parts: seq<string>): seq<string>
  {
    if |parts| == 0 then [] else Lines(parts[0]) + LinesOfEach(parts[1..])
  }

  predicate NoNewline(s: string)
  {
    forall i :: 0 <= i < |s| ==> s[i] != '\n'
  }

  /** `s.startswith(prefix)`. */
  predicate HasPrefix(prefix: string, s: string)
  {
    |prefix| <= |s| && s[..|prefix|] == prefix
  }

  /** `s.endswith(suffix)`. */
  predicate HasSuffix(suffix: string, s: string)
  {
    |suffix| <= |s| && s[|s| - |suffix|..] == suffix
  }

  lemma NoNewlineConcat(a: string, b: string)
    requires NoNewline(a) && NoNewline(b)
    ensures NoNewline(a + b)
  {
  }

  lemma {:induction false} LinesOfOneLine(s: string)
    requires NoNewline(s)
    ensures Lines(s) == [s]
  {
    if |s| > 0 {
      LinesOfOneLine(s[1..]);
      assert [s[0]] + s[1..] == s;
    }
  }

  /** Splitting at a newline that the text itself inserted. */
  lemma {:induction false} LinesOfSeparated(a: string, b: string)
    ensures Lines(a + "\n" + b) == Lines(a) + Lines(b)
  {
    if |a| == 0 {
      assert a + "\n" + b == "\n" + b;
      assert ("\n" + b)[1..] == b;
    } else {
      assert (a + "\n" + b)[0] == a[0];
      assert (a + "\n" + b)[1..] == a[1..] + "\n" + b;
      LinesOfSeparated(a[1..], b);
    }
  }

  lemma LinesOfTerminated(line: string, rest: string)
    requires NoNewline(line)
    ensures Lines(line + "\n" + rest) == [line] + Lines(rest)
  {
    LinesOfSeparated(line, rest);
    LinesOfOneLine(line);
  }

  lemma {:induction false} LinesOfJoin(parts: seq<string>)
    requires |parts| >= 1
    ensures Lines(Join(parts)) == LinesOfEach(parts)
  {
    if |parts| == 1 {
      assert LinesOfEach(parts[1..]) == [];
    } else {
      LinesOfSeparated(parts[0], Join(parts[1..]));
      LinesOfJoin(parts[1..]);
    }
  }

  lemma LinesOfFour(a: string, b: string, c: string, d: string)
    ensures Lines(Join([a, b, c, d])) == Lines(a) + Lines(b) + Lines(c) + Lines(d)
  {
    var parts := [a, b, c, d];
    assert parts[1..] == [b, c, d];
    assert parts[1..][1..] == [c, d];
    assert parts[1..][1..][1..] == [d];
    assert Join([c, d]) == c + "\n" + d;
    assert Join([b, c, d]) == b + "\n" + Join([c, d]);
    assert Join(parts) == a + "\n" + Join([b, c, d]);
    LinesOfSeparated(a, Join([b, c, d]));
    LinesOfSeparated(b, Join([c, d]));
    LinesOfSeparated(c, d);
  }

  lemma {:induction false} LinesOfEachConcat(a: seq<string>, b: seq<string>)
    ensures LinesOfEach(a + b) == LinesOfEach(a) + LinesOfEach(b)
  {
    if |a| == 0 {
      assert a + b == b;
    } else {
      assert (a + b)[0] == a[0];
      assert (a + b)[1..] == a[1..] + b;
      LinesOfEachConcat(a[1..], b);
    }
  }

  /** Splitting a join of one-line parts gives the parts back. */
  lemma {:induction false} LinesJoinRoundTrip(parts: seq<string>)
    requires |parts| >= 1
    requires forall i :: 0 <= i < |parts| ==> NoNewline(parts[i])
    ensures Lines(Join(parts)) == parts
  {
    if |parts| == 1 {
      LinesOfOneLine(parts[0]);
    } else {
      LinesOfSeparated(parts[0], Join(parts[1..]));
      LinesOfOneLine(parts[0]);
      LinesJoinRoundTrip(parts[1..]);
    }
  }

  /** Joining the lines of a text gives the text back. */
  lemma {:induction false} JoinLinesRoundTrip(s: string)
    ensures Join(Lines(s)) == s
  {
    if |s| > 0 {
      JoinLinesRoundTrip(s[1..]);
      var rest := Lines(s[1..]);
      if s[0] == '\n' {
        assert ([""] + rest)[1..] == rest;
        assert s == "\n" + s[1..];
      } else {
        var r := [[s[0]] + rest[0]] + rest[1..];
        assert r[1..] == rest[1..];
        if |rest| == 1 {
          assert s == [s[0]] + s[1..];
        } else {
          assert Join(rest) == rest[0] + "\n" + Join(rest[1..]);
          assert s == [s[0]] + s[1..];
        }
      }
    }
  }

  function DigitChar(d: nat): (c: char)
    requires d < 10
    ensures '0' <= c <= '9' && c as int - '0' as int == d
  {
    ['0', '1', '2', '3', '4', '5', '6', '7', '8', '9'][d]
  }

  /** An integer in an f-string: decimal digits, no sign, no leading zero. */
  function NatStr(n: nat): (s: string)
    ensures |s| >= 1
    ensures forall i :: 0 <= i < |s| ==> '0' <= s[i] <= '9'
    ensures |s| > 1 ==> s[0] != '0'
  {
    if n < 10 then [DigitChar(n)] else NatStr(n / 10) + [DigitChar(n % 10)]
  }

  /** Reads a decimal digit string back; anything else is `None`. */
  function ParseNat(s: string): Option<nat>
  {
    if |s| == 0 then None
    else if !('0' <= s[|s| - 1] <= '9') then None
    else
      var d := s[|s| - 1] as int - '0' as int;
      if |s| == 1 then Some(d)
      else match ParseNat(s[..|s| - 1])
        case None => None
        case Some(v) => Some(10 * v + d)
  }

  lemma {:induction false} ParseNatStr(n: nat)
    ensures ParseNat(NatStr(n)) == Some(n)
  {
    if n >= 10 {
      var s := NatStr(n);
      assert s[..|s| - 1] == NatStr(n / 10);
      ParseNatStr(n / 10);
    }
  }
}
