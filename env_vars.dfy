/** Reading configuration from environment variables: the string caster with
    its regular-expression precedence, single lookups with a default, and the
    collection of every variable under a prefix. The environment is a map. */
module EnvVars {
  import opened Values

  predicate IsDigit(c: char) { '0' <= c <= '9' }

  /** Only decimal digits (possibly none). */
  predicate Digits(s: string) {
    forall i :: 0 <= i < |s| ==> IsDigit(s[i])
  }

  /** `re.match(r"[0-9.,]+$", s)`: at least one character, each a digit, '.' or ','. */
  predicate NumChars(s: string) {
    |s| > 0 && forall i :: 0 <= i < |s| ==> IsDigit(s[i]) || s[i] == '.' || s[i] == ','
  }

  /** The index of the first `c` in `s`, or `|s|` when there is none. */
  function Find(s: string, c: char): (i: nat)
    ensures i <= |s|
    ensures i < |s| ==> s[i] == c
    ensures forall k :: 0 <= k < i ==> s[k] != c
  {
    if s == [] then 0 else if s[0] == c then 0 else 1 + Find(s[1..], c)
  }

  /** `((\d+<sep>(\d+)?)|(<sep>\d+))$`: digits, one separator, digits, with at
      least one digit on some side of the separator. */
  predicate DecimalForm(s: string, sep: char) {
    var i := Find(s, sep);
    i < |s| && Digits(s[..i]) && Digits(s[i + 1..]) && (0 < i || i + 1 < |s|)
  }

  function DigitValue(c: char): nat
    requires IsDigit(c)
  {
    c as int - '0' as int
  }

  /** The number a string of decimal digits denotes (0 for no digits). */
  function DigitsValue(s: string): nat
    requires Digits(s)
  {
    if s == [] then 0 else DigitsValue(s[..|s| - 1]) * 10 + DigitValue(s[|s| - 1])
  }

  function Pow10(n: nat): (r: nat)
    ensures r > 0
  {
    if n == 0 then 1 else 10 * Pow10(n - 1)
  }

  /** The exact value of a decimal in `DecimalForm` (floating-point rounding is
      not modelled). */
  function DecimalValue(s: string, sep: char): real
    requires DecimalForm(s, sep)
  {
    var i := Find(s, sep);
    (DigitsValue(s[..i]) as real) + (DigitsValue(s[i + 1..]) as real) / (Pow10(|s| - i - 1) as real)
  }

  /** `s.replace(a, b)` for single characters. */
  function ReplaceChar(s: string, a: char, b: char): (r: string)
    ensures |r| == |s|
    ensures forall i :: 0 <= i < |s| ==> r[i] == (if s[i] == a then b else s[i])
  {
    if s == [] then [] else [if s[0] == a then b else s[0]] + ReplaceChar(s[1..], a, b)
  }

  /** `re.match(r"(True)|(False)$", s, re.IGNORECASE)`: the alternation binds
      looser than `$`, so any string starting with "true" matches, while "false"
      must be the whole string (ASCII case folding). */
  predicate BoolMatch(s: string) {
    (|s| >= 4 && Lower(s[..4]) == "true") || Lower(s) == "false"
  }

  /** `cast`: digits become an int, the dot and comma decimals a float, a
      boolean word a bool, and every other string is returned unchanged. */
  function Cast(v: string): (r: Value)
    ensures r.PyInt? || r.PyFloat? || r.PyBool? || r.PyStr?
    ensures r.PyStr? ==> r.s == v
    ensures r.PyInt? <==> |v| > 0 && Digits(v)
    ensures r.PyBool? <==> BoolMatch(v)
  {
    if NumChars(v) then
      if |v| > 0 && Digits(v) then PyInt(DigitsValue(v))
      else if DecimalForm(v, '.') then PyFloat(DecimalValue(v, '.'))
      else if DecimalForm(v, ',') && DecimalForm(ReplaceChar(v, ',', '.'), '.') then
        PyFloat(DecimalValue(ReplaceChar(v, ',', '.'), '.'))
      else PyStr(v)
    else if BoolMatch(v) then PyBool(LowerChar(v[0]) == 't')
    else PyStr(v)
  }

  // ---------------------------------------------------------------------------
  // What the caster does with each shape of string

  /** The decimal digits of a natural number. */
  function NatString(n: nat): (s: string)
    ensures |s| > 0 && Digits(s)
  {
    if n < 10 then [('0' as int + n) as char]
    else NatString(n / 10) + [('0' as int + n % 10) as char]
  }

  lemma {:induction false} NatStringValue(n: nat)
    ensures DigitsValue(NatString(n)) == n
  {
    if n >= 10 {
      var s := NatString(n);
      assert s[..|s| - 1] == NatString(n / 10);
      NatStringValue(n / 10);
    }
  }

  /** Printing a number and casting it back gives the same int. */
  lemma CastNatString(n: nat)
    ensures Cast(NatString(n)) == PyInt(n)
  {
    NatStringValue(n);
  }

  lemma FindAfterDigits(a: string, sep: char, b: string)
    requires Digits(a) && !IsDigit(sep)
    ensures Find(a + [sep] + b, sep) == |a|
  {
    var s := a + [sep] + b;
    assert s[|a|] == sep;
    assert forall k :: 0 <= k < |a| ==> s[k] == a[k];
  }

  /** Digits, a separator and digits around it, read back as the parts. */
  lemma SplitAtSeparator(a: string, sep: char, b: string)
    requires Digits(a) && Digits(b) && !IsDigit(sep) && |a| + |b| > 0
    ensures DecimalForm(a + [sep] + b, sep)
    ensures DecimalValue(a + [sep] + b, sep) ==
      (DigitsValue(a) as real) + (DigitsValue(b) as real) / (Pow10(|b|) as real)
    ensures !Digits(a + [sep] + b)
  {
    var s := a + [sep] + b;
    FindAfterDigits(a, sep, b);
    assert s[..|a|] == a && s[|a| + 1..] == b;
    assert !IsDigit(s[|a|]);
  }

  lemma NumCharsAround(a: string, sep: char, b: string)
    requires Digits(a) && Digits(b) && (sep == '.' || sep == ',')
    ensures NumChars(a + [sep] + b)
  {
    var s := a + [sep] + b;
    forall k | 0 <= k < |s|
      ensures IsDigit(s[k]) || s[k] == '.' || s[k] == ','
    {
      if k < |a| {
        assert s[k] == a[k];
      } else if k > |a| {
        assert s[k] == b[k - |a| - 1];
      }
    }
  }

  /** Digits, a dot and digits (not both empty) become the float they denote. */
  lemma CastDotDecimal(a: string, b: string)
    requires Digits(a) && Digits(b) && |a| + |b| > 0
    ensures Cast(a + "." + b) ==
      PyFloat((DigitsValue(a) as real) + (DigitsValue(b) as real) / (Pow10(|b|) as real))
  {
    SplitAtSeparator(a, '.', b);
    NumCharsAround(a, '.', b);
  }

  /** A comma-form decimal with the comma replaced is the dot form. */
  lemma ReplaceComma(a: string, b: string)
    requires Digits(a) && Digits(b)
    ensures ReplaceChar(a + "," + b, ',', '.') == a + "." + b
  {
    var s, t := a + "," + b, a + "." + b;
    assert forall k :: 0 <= k < |s| && k != |a| ==> s[k] == t[k] && s[k] != ',';
  }

  /** The comma form is read exactly like the dot form. */
  lemma CastCommaDecimal(a: string, b: string)
    requires Digits(a) && Digits(b) && |a| + |b| > 0
    ensures Cast(a + "," + b) == Cast(a + "." + b)
  {
    var s := a + "," + b;
    SplitAtSeparator(a, ',', b);
    SplitAtSeparator(a, '.', b);
    NumCharsAround(a, ',', b);
    NumCharsAround(a, '.', b);
    ReplaceComma(a, b);
    assert !DecimalForm(s, '.') by {
      assert forall k :: 0 <= k < |s| ==> s[k] != '.';
    }
  }

  /** A decimal form has a single non-digit, the separator. */
  lemma OneNonDigit(s: string, sep: char, p: nat)
    requires DecimalForm(s, sep) && p < |s| && !IsDigit(s[p])
    ensures p == Find(s, sep)
  {
  }

  /** Digits, dots and commas with two or more separators in total are no number
      and stay a string, e.g. "1.2.3", "1,2,3" or "1.2,3". */
  lemma CastTwoSeparators(s: string, p: nat, q: nat)
    requires NumChars(s) && p < q < |s| && !IsDigit(s[p]) && !IsDigit(s[q])
    ensures Cast(s) == PyStr(s)
  {
    if DecimalForm(s, '.') {
      OneNonDigit(s, '.', p);
      OneNonDigit(s, '.', q);
    }
    if DecimalForm(s, ',') {
      OneNonDigit(s, ',', p);
      OneNonDigit(s, ',', q);
    }
  }

  /** A separator alone is no number either. */
  lemma CastLoneSeparator()
    ensures Cast(".") == PyStr(".")
    ensures Cast(",") == PyStr(",")
  {
    assert !Digits(".") by { assert !IsDigit("."[0]); }
    assert !Digits(",") by { assert !IsDigit(","[0]); }
    assert Find(".", '.') == 0 && Find(",", ',') == 0;
  }

  /** Any string starting with "true" in some letter case is True, even "trueX". */
  lemma CastTruePrefix(s: string)
    requires |s| >= 4 && Lower(s[..4]) == "true"
    ensures Cast(s) == PyBool(true)
  {
    assert LowerChar(s[0]) == Lower(s[..4])[0];
    assert !NumChars(s) by { assert !IsDigit(s[0]); }
  }

  /** "false" in any letter case is False. */
  lemma CastFalse(s: string)
    requires Lower(s) == "false"
    ensures Cast(s) == PyBool(false)
  {
    assert LowerChar(s[0]) == 'f';
    assert !NumChars(s) by { assert !IsDigit(s[0]); }
  }

  /** "false" followed by anything is not a boolean and stays a string, e.g. "falsey". */
  lemma CastFalsePlus(x: string)
    requires x != []
    ensures Cast("false" + x) == PyStr("false" + x)
  {
    var s := "false" + x;
    assert !NumChars(s) by { assert !IsDigit(s[0]); }
    assert Lower(s[..4])[3] == 's';
    assert |Lower(s)| > 5;
  }

  // ---------------------------------------------------------------------------
  // get_env_variable

  /** `get_env_variable`: the cast value of a variable that is set, else the default as given. */
  function GetEnvVariable(env: map<string, string>, key: string, default: Value): (r: Value)
    ensures key in env ==> r == Cast(env[key])
    ensures key !in env ==> r == default
  {
    if key in env then Cast(env[key]) else default
  }

  // ---------------------------------------------------------------------------
  // get_environment_variables

  /** The name a matching variable is stored under. */
  function VarName(k: string, prefix: string, withPrefix: bool): string
    requires prefix <= k
  {
    if withPrefix then k else k[|prefix|..]
  }

  /** The variable a stored name came from. */
  function OrigKey(n: string, prefix: string, withPrefix: bool): string {
    if withPrefix then n else prefix + n
  }

  lemma OrigOfVarName(k: string, prefix: string, withPrefix: bool)
    requires prefix <= k
    ensures OrigKey(VarName(k, prefix, withPrefix), prefix, withPrefix) == k
  {
    if !withPrefix {
      assert k == k[..|prefix|] + k[|prefix|..];
    }
  }

  /** The names stored for the variables in `keys` that start with the prefix. */
  function Names(keys: set<string>, prefix: string, withPrefix: bool): set<string> {
    set k | k in keys && prefix <= k :: VarName(k, prefix, withPrefix)
  }

  /** What `get_environment_variables` collects from the variables in `keys`. */
  function EnvConfig(env: map<string, string>, keys: set<string>, prefix: string, withPrefix: bool): map<string, Value> {
    map n | n in Names(keys, prefix, withPrefix) && OrigKey(n, prefix, withPrefix) in env
      :: Cast(env[OrigKey(n, prefix, withPrefix)])
  }

  lemma EnvConfigAdd(env: map<string, string>, seen: set<string>, k: string, prefix: string, withPrefix: bool)
    requires seen <= env.Keys && k in env && k !in seen
    ensures prefix <= k ==> (EnvConfig(env, seen + {k}, prefix, withPrefix) ==
      EnvConfig(env, seen, prefix, withPrefix)[VarName(k, prefix, withPrefix) := Cast(env[k])])
    ensures !(prefix <= k) ==> EnvConfig(env, seen + {k}, prefix, withPrefix) == EnvConfig(env, seen, prefix, withPrefix)
  {
    assert Names(seen + {k}, prefix, withPrefix) ==
      Names(seen, prefix, withPrefix) + (if prefix <= k then {VarName(k, prefix, withPrefix)} else {});
    if prefix <= k {
      OrigOfVarName(k, prefix, withPrefix);
    }
  }

  /** `get_environment_variables`: every variable whose name starts with the
      prefix (read as a literal string), stored without the prefix unless
      `withPrefix`, with its value cast. */
  method GetEnvironmentVariables(env: map<string, string>, prefix: string, withPrefix: bool)
    returns (config: map<string, Value>)
    ensures config == EnvConfig(env, env.Keys, prefix, withPrefix)
  {
    config := map[];
    var rest := env.Keys;
    ghost var seen: set<string> := {};
    while rest != {}
      invariant rest + seen == env.Keys && rest !! seen
      invariant config == EnvConfig(env, seen, prefix, withPrefix)
      decreases |rest|
    {
      var ky :| ky in rest;
      EnvConfigAdd(env, seen, ky, prefix, withPrefix);
      if prefix <= ky {
        var nm := if withPrefix then ky else ky[|prefix|..];
        config := config[nm := Cast(env[ky])];
      }
      rest := rest - {ky};
      seen := seen + {ky};
    }
  }

  /** Without the prefix in the names: a name is collected exactly when the
      prefixed variable is set, and holds that variable's cast value, the same
      value a single lookup of the prefixed variable returns. */
  lemma EnvConfigStripped(env: map<string, string>, prefix: string, n: string, default: Value)
    ensures n in EnvConfig(env, env.Keys, prefix, false) <==> prefix + n in env
    ensures n in EnvConfig(env, env.Keys, prefix, false) ==>
      EnvConfig(env, env.Keys, prefix, false)[n] == GetEnvVariable(env, prefix + n, default)
  {
    var k := prefix + n;
    if k in env {
      assert prefix <= k;
      assert VarName(k, prefix, false) == n;
      assert n in Names(env.Keys, prefix, false);
    }
  }

  /** With the prefix kept: exactly the variables that start with it, cast. */
  lemma EnvConfigWithPrefix(env: map<string, string>, prefix: string, k: string)
    ensures k in EnvConfig(env, env.Keys, prefix, true) <==> k in env && prefix <= k
    ensures k in EnvConfig(env, env.Keys, prefix, true) ==> EnvConfig(env, env.Keys, prefix, true)[k] == Cast(env[k])
  {
    if k in env && prefix <= k {
      assert VarName(k, prefix, true) == k;
      assert k in Names(env.Keys, prefix, true);
    }
  }
}
