/** Positional parameters in SQL text, as PostgreSQL numbers them: a `$`
    followed by one or more decimal digits names the parameter of that number. */
module SqlText {
  import opened Decimal

  /** True when `b` cannot extend a run of digits that ends just before it. */
  predicate NotDigitStart(b: string) {
    b == [] || !IsDigit(b[0])
  }

  /** The run of digits `s` starts with. */
  function LeadingDigits(s: string): (d: string)
    ensures AllDigits(d) && |d| <= |s| && d == s[..|d|]
    ensures |d| < |s| ==> !IsDigit(s[|d|])
    decreases |s|
  {
    if s == [] || !IsDigit(s[0]) then [] else [s[0]] + LeadingDigits(s[1..])
  }

  /** The numbers of the `$n` placeholders of `s`, in the order they occur. */
  function Placeholders(s: string): seq<nat>
    decreases |s|
  {
    if s == [] then []
    else if s[0] == '$' && LeadingDigits(s[1..]) != [] then
      var d := LeadingDigits(s[1..]);
      [ParseNat(d)] + Placeholders(s[1 + |d|..])
    else Placeholders(s[1..])
  }

  /** Text without a `$` contributes no placeholder, whatever follows it. */
  lemma {:induction false} NoDollarPrefix(a: string, b: string)
    requires '$' !in a
    ensures Placeholders(a + b) == Placeholders(b)
    decreases |a|
  {
    if a != [] {
      assert (a + b)[0] == a[0] != '$';
      assert (a + b)[1..] == a[1..] + b;
      assert '$' !in a[1..] by {
        forall i | 0 <= i < |a[1..]| ensures a[1..][i] != '$' { assert a[1..][i] == a[i + 1]; }
      }
      NoDollarPrefix(a[1..], b);
      assert Placeholders(a + b) == Placeholders(a[1..] + b);
    } else {
      assert a + b == b;
    }
  }

  lemma {:induction false} LeadingDigitsAppend(x: string, b: string)
    requires NotDigitStart(b)
    ensures LeadingDigits(x + b) == LeadingDigits(x)
    decreases |x|
  {
    if x != [] {
      assert (x + b)[1..] == x[1..] + b;
      LeadingDigitsAppend(x[1..], b);
    }
  }

  lemma DropAppend(a: string, b: string, k: nat)
    requires k <= |a|
    ensures (a + b)[k..] == a[k..] + b
  {
    assert forall i :: 0 <= i < |a[k..] + b| ==> (a + b)[k..][i] == (a[k..] + b)[i];
  }

  /** Placeholders of a concatenation are those of its parts, unless the second
      part starts with a digit that would lengthen a number ending the first. */
  lemma {:induction false} PlaceholdersAppend(a: string, b: string)
    requires NotDigitStart(b)
    ensures Placeholders(a + b) == Placeholders(a) + Placeholders(b)
    decreases |a|, 1
  {
    if a == [] {
      assert a + b == b;
    } else if a[0] == '$' && LeadingDigits(a[1..]) != [] {
      PlaceholdersAppendToken(a, b);
    } else {
      PlaceholdersAppendSkip(a, b);
    }
  }

  /** The case of PlaceholdersAppend where `a` starts with a placeholder. */
  lemma {:induction false} PlaceholdersAppendToken(a: string, b: string)
    requires NotDigitStart(b)
    requires a != [] && a[0] == '$' && LeadingDigits(a[1..]) != []
    ensures Placeholders(a + b) == Placeholders(a) + Placeholders(b)
    decreases |a|, 0
  {
    var s := a + b;
    var d := LeadingDigits(a[1..]);
    DropAppend(a, b, 1);
    assert s[0] == '$';
    assert LeadingDigits(s[1..]) == d by {
      LeadingDigitsAppend(a[1..], b);
    }
    var rest := a[1 + |d|..];
    DropAppend(a, b, 1 + |d|);
    calc {
      Placeholders(s);
      [ParseNat(d)] + Placeholders(rest + b);
      { PlaceholdersAppend(rest, b); }
      [ParseNat(d)] + (Placeholders(rest) + Placeholders(b));
      Placeholders(a) + Placeholders(b);
    }
  }

  /** The case of PlaceholdersAppend where the first character of `a` is skipped. */
  lemma {:induction false} PlaceholdersAppendSkip(a: string, b: string)
    requires NotDigitStart(b)
    requires a != [] && !(a[0] == '$' && LeadingDigits(a[1..]) != [])
    ensures Placeholders(a + b) == Placeholders(a) + Placeholders(b)
    decreases |a|, 0
  {
    var s := a + b;
    DropAppend(a, b, 1);
    assert s[0] == a[0];
    assert LeadingDigits(s[1..]) == LeadingDigits(a[1..]) by {
      LeadingDigitsAppend(a[1..], b);
    }
    calc {
      Placeholders(s);
      Placeholders(a[1..] + b);
      { PlaceholdersAppend(a[1..], b); }
      Placeholders(a[1..]) + Placeholders(b);
      Placeholders(a) + Placeholders(b);
    }
  }

  /** `$` and the numeral of `n` form one placeholder naming `n`. */
  lemma {:induction false} PlaceholderToken(n: nat, b: string)
    requires NotDigitStart(b)
    ensures Placeholders("$" + NatToString(n) + b) == [n] + Placeholders(b)
  {
    var digits := NatToString(n);
    var s := "$" + digits + b;
    assert s[1..] == digits + b;
    LeadingDigitsAppend(digits, b);
    assert LeadingDigits(digits) == digits;
    ParseNatToString(n);
    assert s[1 + |digits|..] == b;
  }

  /** The same after fixed text that holds no `$`. */
  lemma {:induction false} PlaceholderAfter(prefix: string, n: nat, b: string)
    requires '$' !in prefix && NotDigitStart(b)
    ensures Placeholders(prefix + "$" + NatToString(n) + b) == [n] + Placeholders(b)
  {
    var token := "$" + NatToString(n) + b;
    assert prefix + "$" + NatToString(n) + b == prefix + token;
    NoDollarPrefix(prefix, token);
    PlaceholderToken(n, b);
  }

  /** Fixed text before and after a part that holds placeholders adds none. */
  lemma Surrounded(a: string, b: string, c: string)
    requires '$' !in a && NotDigitStart(c)
    ensures Placeholders(a + b + c) == Placeholders(b) + Placeholders(c)
  {
    NoDollarPrefix(a, b);
    PlaceholdersAppend(a + b, c);
  }
}
