/** White space in texts. */
module Texts {

  /** The Unicode White_Space characters. */
  predicate IsSpace(c: char) {
    var n := c as int;
    || 0x9 <= n <= 0xD || n == 0x20 || n == 0x85 || n == 0xA0 || n == 0x1680 || 0x2000 <= n <= 0x200A
    || n == 0x2028 || n == 0x2029 || n == 0x202F || n == 0x205F || n == 0x3000
  }

  /** The text without its white space. */
  function Solid(s: string): string {
    if s == "" then "" else (if IsSpace(s[0]) then "" else [s[0]]) + Solid(s[1..])
  }

  function Trim(s: string): string
    decreases |s|
  {
    if s == "" then ""
    else if IsSpace(s[0]) then Trim(s[1..])
    else if IsSpace(s[|s| - 1]) then Trim(s[..|s| - 1])
    else s
  }

  lemma {:induction false} SolidConcat(a: string, b: string)
    ensures Solid(a + b) == Solid(a) + Solid(b)
  {
    if a == "" {
      assert a + b == b;
    } else {
      assert (a + b)[1..] == a[1..] + b;
      SolidConcat(a[1..], b);
    }
  }

  lemma {:induction false} TrimSolid(s: string)
    ensures Solid(Trim(s)) == Solid(s) && (Solid(s) == "" ==> Trim(s) == "")
    decreases |s|
  {
    if s == "" {
    } else if IsSpace(s[0]) {
      TrimSolid(s[1..]);
    } else if IsSpace(s[|s| - 1]) {
      TrimSolid(s[..|s| - 1]);
      assert s == s[..|s| - 1] + [s[|s| - 1]];
      SolidConcat(s[..|s| - 1], [s[|s| - 1]]);
      assert Solid([s[|s| - 1]]) == "";
    }
  }

  predicate Blank(s: string) { Trim(s) == "" }

  /** The 25 characters with the property White_Space. */
  const SPACES: set<int> := {9, 10, 11, 12, 13, 32, 133, 160, 5760, 8192, 8193, 8194, 8195, 8196, 8197, 8198, 8199,
                             8200, 8201, 8202, 8232, 8233, 8239, 8287, 12288}

  lemma SpacesAre(c: char)
    ensures IsSpace(c) <==> c as int in SPACES
  {
  }

  /** Trimming cuts off the white space at both ends, and nothing else. */
  lemma {:induction false} TrimCuts(s: string) returns (i: nat, j: nat)
    ensures i <= j <= |s| && Trim(s) == s[i..j]
    ensures forall k :: 0 <= k < i || j <= k < |s| ==> IsSpace(s[k])
    ensures i < j ==> !IsSpace(s[i]) && !IsSpace(s[j - 1])
    decreases |s|
  {
    if s == "" {
      i, j := 0, 0;
    } else if IsSpace(s[0]) {
      var rest := s[1..];
      i, j := TrimCuts(rest);
      assert rest[i..j] == s[i + 1..j + 1];
      i, j := i + 1, j + 1;
      hide IsSpace, Trim;
      forall k | 0 <= k < i || j <= k < |s| ensures IsSpace(s[k]) {
        if k > 0 { assert s[k] == rest[k - 1]; }
      }
    } else if IsSpace(s[|s| - 1]) {
      var rest := s[..|s| - 1];
      i, j := TrimCuts(rest);
      assert rest[i..j] == s[i..j];
      hide IsSpace, Trim;
      forall k | 0 <= k < i || j <= k < |s| ensures IsSpace(s[k]) {
        if k < |s| - 1 { assert s[k] == rest[k]; }
      }
    } else {
      i, j := 0, |s|;
      assert s[0..|s|] == s;
    }
  }

  lemma BlankIff(s: string)
    ensures Blank(s) <==> forall i :: 0 <= i < |s| ==> IsSpace(s[i])
  {
    var i, j := TrimCuts(s);
    if Trim(s) == "" { assert i == j; }
  }

  /** Decimal notation. */
  function Decimal(n: nat): string {
    var digit := [(n % 10 + '0' as int) as char];
    if n < 10 then digit else Decimal(n / 10) + digit
  }

  /** The number that some digits stand for. */
  function ValueOf(digits: string): int {
    if digits == "" then 0
    else 10 * ValueOf(digits[..|digits| - 1]) + digits[|digits| - 1] as int - '0' as int
  }

  /** Decimal notation stands for its number, in digits and without leading zeros. */
  lemma {:induction false} DecimalIsRight(n: nat)
    ensures ValueOf(Decimal(n)) == n
    ensures forall i :: 0 <= i < |Decimal(n)| ==> '0' <= Decimal(n)[i] <= '9'
    ensures Decimal(n) != "" && (Decimal(n)[0] == '0' ==> Decimal(n) == "0")
  {
    var digit := [(n % 10 + '0' as int) as char];
    if n < 10 {
      assert digit[..0] == "";
    } else {
      DecimalIsRight(n / 10);
      assert Decimal(n) == Decimal(n / 10) + digit && Decimal(n)[..|Decimal(n)| - 1] == Decimal(n / 10);
    }
  }
}
