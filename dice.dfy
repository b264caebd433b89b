/** dice_roll.py: `roll_formula(formula, **vars)`.

    The formula is a template: `{name}` placeholders are filled from `vars`,
    a placeholder that is not supplied counts as 0. The text is then
    normalised (lower-cased, Cyrillic `д`/`к` read as `d`, spaces removed);
    if it holds a parenthesised part only that part is evaluated; the
    remainder is either `NdS`, `NdS+M`, `NdS-M` (N rolls of a die with S sides,
    plus M) or a plain integer, and anything else raises ValueError.

    Randomness is an oracle: `draw(k, s)` is the value of the k-th call of
    `random.randint(1, s)` made by the program, and `offset` counts the calls
    made before this one. */
module Dice {
  import opened Wrappers
  import opened Text

  type Oracle = (nat, nat) -> int

  /** `\w` of Python's `re` for the characters this model covers: ASCII
      letters, digits, `_`, and the Cyrillic block. */
  predicate IsWordChar(c: char) {
    ('a' <= c <= 'z') || ('A' <= c <= 'Z') || IsDigit(c) || c == '_'
    || (0x400 <= c as int <= 0x4FF)
  }

  predicate AllWord(s: string) {
    forall k :: 0 <= k < |s| ==> IsWordChar(s[k])
  }

  predicate AllDigits(s: string) {
    forall k :: 0 <= k < |s| ==> IsDigit(s[k])
  }

  /** The index of the first `c` in `s` at or after `from`. */
  function Find(s: string, c: char, from: nat): (r: Option<nat>)
    ensures r.Some? ==> from <= r.value < |s| && s[r.value] == c
    ensures r.Some? ==> forall k :: from <= k < r.value ==> s[k] != c
    ensures r.None? ==> forall k :: from <= k < |s| ==> s[k] != c
    decreases |s| - from
  {
    if from >= |s| then None
    else if s[from] == c then Some(from)
    else Find(s, c, from + 1)
  }

  /** `Find` stops at the first `c`. */
  lemma {:induction false} FindFirst(s: string, c: char, from: nat, j: nat)
    requires from <= j < |s| && s[j] == c
    requires forall k :: from <= k < j ==> s[k] != c
    ensures Find(s, c, from) == Some(j)
    decreases j - from
  {
    if from < j { FindFirst(s, c, from + 1, j); }
  }

  function Prepend(prefix: string, rest: Result<string>): Result<string> {
    match rest
    case Ok(t) => Ok(prefix + t)
    case Fail(e) => Fail(e)
  }

  /** The index of the first character of `s` in `stops`, or `|s|`. */
  function FirstOf(s: string, stops: set<char>): (n: nat)
    ensures n <= |s| && (n < |s| ==> s[n] in stops)
    ensures forall k :: 0 <= k < n ==> s[k] !in stops
  {
    if s == [] || s[0] in stops then 0 else 1 + FirstOf(s[1..], stops)
  }

  /** The names `re.findall(r"\{(\w+)}", s)` returns: every non-empty run of
      word characters between a `{` and the `}` right after it. */
  function PlainFields(s: string): set<string>
    decreases |s|
  {
    if s == [] then {}
    else
      var here: set<string> :=
        if s[0] != '{' then {}
        else match Find(s, '}', 1)
          case Some(j) => if j > 1 && AllWord(s[1..j]) then {s[1..j]} else {}
          case None => {};
      here + PlainFields(s[1..])
  }

  /** `vars` after the loop of dice_roll.py:7-9: every plain placeholder of
      the formula that `vars` does not supply is given the value 0. */
  function Defaulted(vars: map<string, int>, formula: string): (env: map<string, int>)
    ensures env.Keys == vars.Keys + PlainFields(formula)
    ensures forall name :: name in env ==> env[name] == if name in vars then vars[name] else 0
  {
    map name | name in vars.Keys + PlainFields(formula) :: if name in vars then vars[name] else 0
  }

  /** `s.format(**env)` (dice_roll.py:10). `{{` and `}}` are literal braces
      and an unmatched brace is a ValueError. A replacement field runs to
      the next `}`; its name ends at the first `:` or `!`, and a `{` inside
      the name is a ValueError. The part of the name before the first `.`
      or `[` is looked up: empty or all digits, it is a positional
      reference and an IndexError, since no positional argument is given;
      otherwise a name `env` lacks is a KeyError, and a name it has is
      rendered as the decimal text of its value. */
  function Format(s: string, env: map<string, int>): (r: Result<string>)
    decreases |s|
  {
    if s == [] then Ok([])
    else if s[0] == '{' then
      if |s| >= 2 && s[1] == '{' then Prepend("{", Format(s[2..], env))
      else
        match Find(s, '}', 1)
        case None => Fail(ValueError)
        case Some(j) =>
          var field := s[1..j];
          var name := field[..FirstOf(field, {':', '!'})];
          var head := name[..FirstOf(name, {'.', '['})];
          if '{' in name then Fail(ValueError)
          else if head == [] || AllDigits(head) then Fail(IndexError)
          else if head !in env then Fail(KeyError)
          else Prepend(IntToString(env[head]), Format(s[j + 1..], env))
    else if s[0] == '}' then
      if |s| >= 2 && s[1] == '}' then Prepend("}", Format(s[2..], env)) else Fail(ValueError)
    else Prepend([s[0]], Format(s[1..], env))
  }

  /** dice_roll.py:7-10: the defaults, then the substitution. */
  function Substitute(formula: string, vars: map<string, int>): Result<string> {
    Format(formula, Defaulted(vars, formula))
  }

  /** Text without braces is its own template. */
  lemma {:induction false} FormatPlain(s: string, env: map<string, int>)
    requires forall k :: 0 <= k < |s| ==> s[k] != '{' && s[k] != '}'
    ensures Format(s, env) == Ok(s)
    decreases |s|
  {
    if s != [] {
      FormatPlain(s[1..], env);
      assert [s[0]] + s[1..] == s;
    }
  }

  /** The looked-up part of a field whose name is `name` followed by a
      conversion, a format spec, an attribute or an index is `name`. */
  lemma FieldHead(name: string, tail: string)
    requires AllWord(name)
    requires tail == [] || tail[0] in {':', '!', '.', '['}
    requires forall k :: 0 <= k < |tail| ==> tail[k] != '{'
    ensures var field := name + tail;
            var nm := field[..FirstOf(field, {':', '!'})];
            nm[..FirstOf(nm, {'.', '['})] == name && '{' !in nm
  {
    var field := name + tail;
    assert forall k :: 0 <= k < |name| ==> field[k] == name[k] && IsWordChar(name[k]);
    var n := FirstOf(field, {':', '!'});
    assert |name| <= n;
    var nm := field[..n];
    assert forall k :: 0 <= k < |nm| ==> nm[k] == field[k];
    assert forall k :: 0 <= k < |field| ==> field[k] != '{';
    var h := FirstOf(nm, {'.', '['});
    assert |name| <= h;
    assert h == |name| by {
      if n > |name| { assert nm[|name|] == tail[0]; }
    }
    assert nm[..h] == name;
  }

  /** A field naming a word `env` has is replaced by its value, whatever
      conversion or format spec follows the name. */
  lemma FormatField(name: string, tail: string, rest: string, env: map<string, int>)
    requires name != [] && AllWord(name) && !AllDigits(name) && name in env
    requires tail == [] || tail[0] in {':', '!', '.', '['}
    requires forall k :: 0 <= k < |tail| ==> tail[k] != '{' && tail[k] != '}'
    ensures Format("{" + name + tail + "}" + rest, env) == Prepend(IntToString(env[name]), Format(rest, env))
  {
    var s := "{" + name + tail + "}" + rest;
    var j := |name| + |tail| + 1;
    assert s[1] == name[0] && IsWordChar(name[0]);
    assert forall k :: 1 <= k < j ==> s[k] == (name + tail)[k - 1];
    assert forall k :: 0 <= k < |name| ==> IsWordChar(name[k]);
    FindFirst(s, '}', 1, j);
    assert s[1..j] == name + tail;
    assert s[j + 1..] == rest;
    FieldHead(name, tail);
  }

  /** `FormatField` for a field that is only a name. */
  lemma FormatPlainField(name: string, rest: string, env: map<string, int>)
    requires name != [] && AllWord(name) && !AllDigits(name) && name in env
    ensures Format("{" + name + "}" + rest, env) == Prepend(IntToString(env[name]), Format(rest, env))
  {
    assert "{" + name + "}" + rest == "{" + name + [] + "}" + rest;
    FormatField(name, [], rest, env);
  }

  /** A leading `{name}` is one of the placeholders `findall` returns. */
  lemma LeadingPlain(name: string, rest: string)
    requires name != [] && AllWord(name)
    ensures name in PlainFields("{" + name + "}" + rest)
  {
    var s := "{" + name + "}" + rest;
    var j := |name| + 1;
    assert forall k :: 1 <= k < j ==> s[k] == name[k - 1] && IsWordChar(name[k - 1]);
    FindFirst(s, '}', 1, j);
    assert s[1..j] == name;
  }

  /** A placeholder that `vars` does not supply reads as 0; one it supplies
      reads as the supplied value. */
  lemma FormatPlaceholder(name: string, vars: map<string, int>, rest: string)
    requires name != [] && AllWord(name) && !AllDigits(name)
    requires forall k :: 0 <= k < |rest| ==> rest[k] != '{' && rest[k] != '}'
    ensures Substitute("{" + name + "}" + rest, vars)
            == Ok((if name in vars then IntToString(vars[name]) else "0") + rest)
  {
    var s := "{" + name + "}" + rest;
    LeadingPlain(name, rest);
    var env := Defaulted(vars, s);
    FormatPlainField(name, rest, env);
    FormatPlain(rest, env);
    assert IntToString(0) == "0";
  }

  /** A positional field fails with IndexError whatever its format spec:
      `{0:5}` and `{:5}` name the first positional argument, and there is
      none. */
  lemma PositionalFields(env: map<string, int>)
    ensures Format("{0:5}", env) == Fail(IndexError)
    ensures Format("{:5}", env) == Fail(IndexError)
  {
    var a := "{0:5}";
    assert Find(a, '}', 1) == Some(4);
    assert a[1..4] == "0:5";
    assert FirstOf("0:5", {':', '!'}) == 1;
    assert FirstOf("0", {'.', '['}) == 1;
    var b := "{:5}";
    assert Find(b, '}', 1) == Some(3);
    assert b[1..3] == ":5";
    assert FirstOf(":5", {':', '!'}) == 0;
  }

  /** Two fields naming a word that `env` maps to 0 render as "00". */
  lemma FormatZeroTwice(name: string, tail: string, env: map<string, int>)
    requires name != [] && AllWord(name) && !AllDigits(name) && name in env && env[name] == 0
    requires tail == [] || tail[0] in {':', '!', '.', '['}
    requires forall k :: 0 <= k < |tail| ==> tail[k] != '{' && tail[k] != '}'
    ensures Format("{" + name + "}" + ("{" + name + tail + "}"), env) == Ok("00")
  {
    var second := "{" + name + tail + "}";
    assert IntToString(env[name]) == "0";
    FormatField(name, tail, [], env);
    assert second + [] == second;
    assert Format(second, env) == Prepend("0", Ok([]));
    assert Prepend("0", Ok([])) == Ok("0") by { assert "0" + [] == "0"; }
    FormatPlainField(name, second, env);
    assert Prepend("0", Ok("0")) == Ok("00") by { assert "0" + "0" == "00"; }
  }

  /** A field with a conversion or format spec takes its value from the
      default of a plain placeholder of the same name: in `{x}{x:5}` both
      fields read x as 0. */
  lemma SpecFieldUsesDefault(name: string, tail: string)
    requires name != [] && AllWord(name) && !AllDigits(name)
    requires tail != [] && tail[0] in {':', '!', '.', '['}
    requires forall k :: 0 <= k < |tail| ==> tail[k] != '{' && tail[k] != '}'
    ensures Substitute("{" + name + "}" + ("{" + name + tail + "}"), map[]) == Ok("00")
  {
    var s := "{" + name + "}" + ("{" + name + tail + "}");
    LeadingPlain(name, "{" + name + tail + "}");
    FormatZeroTwice(name, tail, Defaulted(map[], s));
  }

  // ---------------------------------------------------------------------
  // Normalisation: formula.lower().replace("д", "d").replace("к", "d").replace(" ", "")
  // ---------------------------------------------------------------------

  /** `str.lower` on one character, for ASCII and Cyrillic capitals. */
  function LowerChar(c: char): char {
    if 'A' <= c <= 'Z' then ((c as int) + 32) as char
    else if 0x410 <= c as int <= 0x42F then ((c as int) + 32) as char
    else if 0x400 <= c as int <= 0x40F then ((c as int) + 80) as char
    else c
  }

  predicate IsUpper(c: char) {
    ('A' <= c <= 'Z') || (0x400 <= c as int <= 0x42F)
  }

  function Lower(s: string): (r: string)
    ensures |r| == |s| && forall k :: 0 <= k < |s| ==> r[k] == LowerChar(s[k])
  {
    if s == [] then [] else [LowerChar(s[0])] + Lower(s[1..])
  }

  function ReplaceChar(s: string, from: char, to: char): (r: string)
    ensures |r| == |s|
    ensures forall k :: 0 <= k < |s| ==> r[k] == if s[k] == from then to else s[k]
  {
    if s == [] then [] else [if s[0] == from then to else s[0]] + ReplaceChar(s[1..], from, to)
  }

  function RemoveChar(s: string, c: char): (r: string)
    ensures |r| <= |s|
    ensures forall k :: 0 <= k < |r| ==> r[k] != c
    ensures forall k :: 0 <= k < |r| ==> r[k] in s
  {
    if s == [] then [] else (if s[0] == c then [] else [s[0]]) + RemoveChar(s[1..], c)
  }

  function Normalise(s: string): string {
    RemoveChar(ReplaceChar(ReplaceChar(Lower(s), 'д', 'd'), 'к', 'd'), ' ')
  }

  predicate NormalChar(c: char) {
    c != ' ' && c != 'д' && c != 'к' && !IsUpper(c)
  }

  /** After normalisation no space, no `д`, no `к` and no capital letter is
      left (dice_roll.py:12). */
  lemma NormaliseShape(s: string)
    ensures forall k :: 0 <= k < |Normalise(s)| ==> NormalChar(Normalise(s)[k])
  {
    var t := ReplaceChar(ReplaceChar(Lower(s), 'д', 'd'), 'к', 'd');
    assert forall k :: 0 <= k < |t| ==> t[k] == ' ' || NormalChar(t[k]);
  }

  /** Normalising only removes characters, so a normalised text is its own
      normal form. */
  lemma {:induction false} RemoveCharKeeps(s: string, c: char)
    requires forall k :: 0 <= k < |s| ==> s[k] != c
    ensures RemoveChar(s, c) == s
  {
    if s != [] {
      RemoveCharKeeps(s[1..], c);
      assert [s[0]] + s[1..] == s;
    }
  }

  lemma NormaliseIdempotent(s: string)
    ensures Normalise(Normalise(s)) == Normalise(s)
  {
    var n := Normalise(s);
    NormaliseShape(s);
    assert Lower(n) == n;
    assert ReplaceChar(n, 'д', 'd') == n;
    assert ReplaceChar(n, 'к', 'd') == n;
    RemoveCharKeeps(n, ' ');
  }

  // ---------------------------------------------------------------------
  // re.search(r"\(([^)]+)\)", formula)
  // ---------------------------------------------------------------------

  /** The contents of the leftmost `(` that is followed, after at least one
      other character, by a `)`: the first group of the search. */
  function ParenGroup(s: string, from: nat): (r: Option<string>)
    ensures r.Some? ==> r.value != [] && forall k :: 0 <= k < |r.value| ==> r.value[k] != ')'
    decreases |s| - from
  {
    if from >= |s| then None
    else if s[from] == '(' then
      match Find(s, ')', from + 1)
      case Some(j) =>
        if j > from + 1 then
          assert s[from + 1..j][..] == s[from + 1..j];
          Some(s[from + 1..j])
        else ParenGroup(s, from + 1)
      case None => ParenGroup(s, from + 1)
    else ParenGroup(s, from + 1)
  }

  /** `\(([^)]+)\)` matches at `i`, up to the `)` at `j`: a `(`, at least one
      character, none of them `)`, and the `)`. */
  predicate GroupAt(s: string, i: nat, j: nat) {
    i + 1 < j < |s| && s[i] == '(' && s[j] == ')' && forall k :: i < k < j ==> s[k] != ')'
  }

  /** No group is found exactly when none starts at or after `from`. */
  lemma {:induction false} ParenGroupNoneIff(s: string, from: nat)
    ensures ParenGroup(s, from).None? <==> forall i, j :: from <= i ==> !GroupAt(s, i, j)
    decreases |s| - from
  {
    if from < |s| {
      ParenGroupNoneIff(s, from + 1);
      var f := Find(s, ')', from + 1);
      if s[from] == '(' && f.Some? && f.value > from + 1 {
        assert GroupAt(s, from, f.value);
      } else {
        assert forall j' :: !GroupAt(s, from, j');
      }
    }
  }

  /** The group found is the leftmost one, as `re.search` gives it. */
  lemma {:induction false} ParenGroupLeftmost(s: string, from: nat, i: nat, j: nat)
    requires from <= i && GroupAt(s, i, j)
    requires forall i', j' :: from <= i' < i ==> !GroupAt(s, i', j')
    ensures ParenGroup(s, from) == Some(s[i + 1..j])
    decreases i - from
  {
    var f := Find(s, ')', from + 1);
    if from == i {
      FindFirst(s, ')', from + 1, j);
    } else {
      ParenGroupLeftmost(s, from + 1, i, j);
      if f.Some? { assert !GroupAt(s, from, f.value); }
    }
  }

  /** The formula text after substitution, normalisation and extraction of
      a parenthesised part (dice_roll.py:7-16). */
  function Expression(formula: string, vars: map<string, int>): Result<string> {
    match Substitute(formula, vars)
    case Fail(e) => Fail(e)
    case Ok(text) =>
      var normal := Normalise(text);
      match ParenGroup(normal, 0)
      case Some(inner) => Ok(inner)
      case None => Ok(normal)
  }

  /** When the normalised text holds a parenthesised part, only the
      leftmost one is evaluated. */
  lemma ExpressionOfGroup(formula: string, vars: map<string, int>, text: string, i: nat, j: nat)
    requires Substitute(formula, vars) == Ok(text)
    requires GroupAt(Normalise(text), i, j)
    requires forall i': nat, j': nat :: i' < i ==> !GroupAt(Normalise(text), i', j')
    ensures Expression(formula, vars) == Ok(Normalise(text)[i + 1..j])
  {
    ParenGroupLeftmost(Normalise(text), 0, i, j);
  }

  // ---------------------------------------------------------------------
  // re.fullmatch(r'(\d+)[d](\d+)([+-]\d+)?', formula)
  // ---------------------------------------------------------------------

  datatype DiceSpec = DiceSpec(count: nat, sides: nat, modifier: int)

  /** The length of the longest all-digit prefix. */
  function DigitPrefix(s: string): (n: nat)
    ensures n <= |s| && AllDigits(s[..n]) && (n < |s| ==> !IsDigit(s[n]))
  {
    if s == [] || !IsDigit(s[0]) then 0
    else
      var n := 1 + DigitPrefix(s[1..]);
      assert s[..n] == [s[0]] + s[1..][..n - 1];
      n
  }

  function DigitsValue(s: string): nat
    requires AllDigits(s)
  {
    RunValue(s)
  }

  /** The optional `[+-]M` at the end of a dice text. */
  function ParseModifier(tail: string): Option<int> {
    if tail == [] then Some(0)
    else if (tail[0] == '+' || tail[0] == '-') && |tail| > 1 && AllDigits(tail[1..]) then
      var m: int := DigitsValue(tail[1..]);
      Some(if tail[0] == '-' then -m else m)
    else None
  }

  /** The `NdS[+-M]` reading of a whole text, when it has that form. */
  function ParseDice(s: string): (r: Option<DiceSpec>)
  {
    var a := DigitPrefix(s);
    if a == 0 || a == |s| || s[a] != 'd' then None
    else
      var rest := s[a + 1..];
      var b := DigitPrefix(rest);
      if b == 0 then None
      else
        match ParseModifier(rest[b..])
        case None => None
        case Some(m) => Some(DiceSpec(DigitsValue(s[..a]), DigitsValue(rest[..b]), m))
  }

  /** The canonical text of a dice specification. */
  function DiceText(d: DiceSpec): string {
    NatToString(d.count) + "d" + NatToString(d.sides) + ModifierText(d.modifier)
  }

  lemma {:induction false} DigitPrefixOfDigits(digits: string, rest: string)
    requires AllDigits(digits)
    requires rest == [] || !IsDigit(rest[0])
    ensures DigitPrefix(digits + rest) == |digits|
    decreases |digits|
  {
    if digits != [] {
      DigitPrefixOfDigits(digits[1..], rest);
      assert (digits + rest)[1..] == digits[1..] + rest;
    }
  }

  /** The modifier text of a canonical dice text. */
  function ModifierText(m: int): string {
    if m > 0 then "+" + NatToString(m) else if m < 0 then "-" + NatToString(-m) else ""
  }

  lemma ParseDiceParts(n: string, s: string, m: string, d: DiceSpec)
    requires n != [] && AllDigits(n) && DigitsValue(n) == d.count
    requires s != [] && AllDigits(s) && DigitsValue(s) == d.sides
    requires m == ModifierText(d.modifier)
    ensures ParseDice(n + "d" + s + m) == Some(d)
  {
    var text := n + "d" + s + m;
    DigitPrefixOfDigits(n, "d" + s + m);
    assert text == n + ("d" + s + m);
    assert text[..|n|] == n && text[|n|] == 'd';
    var rest := text[|n| + 1..];
    assert rest == s + m;
    assert m == [] || !IsDigit(m[0]);
    DigitPrefixOfDigits(s, m);
    assert rest[..|s|] == s && rest[|s|..] == m;
    ModifierRoundTrip(d.modifier);
  }

  lemma ModifierRoundTrip(m: int)
    ensures ParseModifier(ModifierText(m)) == Some(m)
  {
    if m != 0 {
      var k: nat := if m > 0 then m else -m;
      NatToStringValue(k);
      assert ModifierText(m)[1..] == NatToString(k);
    }
  }

  /** Parsing the canonical text gives back the specification. */
  lemma DiceTextRoundTrip(d: DiceSpec)
    ensures ParseDice(DiceText(d)) == Some(d)
  {
    NatToStringValue(d.count);
    NatToStringValue(d.sides);
    ParseDiceParts(NatToString(d.count), NatToString(d.sides), ModifierText(d.modifier), d);
  }

  // ---------------------------------------------------------------------
  // Rolling
  // ---------------------------------------------------------------------

  /** `sum(random.randint(1, sides) for _ in range(count))`, the draws being
      numbers `offset`, `offset + 1`, ... of the oracle. */
  function SumDraws(draw: Oracle, offset: nat, count: nat, sides: nat): int
    decreases count
  {
    if count == 0 then 0 else draw(offset, sides) + SumDraws(draw, offset + 1, count - 1, sides)
  }

  /** `random.randint(1, sides)` keeps its promise for these draws. */
  ghost predicate FairDraws(draw: Oracle, offset: nat, count: nat, sides: nat) {
    forall k :: offset <= k < offset + count ==> 1 <= draw(k, sides) <= sides
  }

  lemma {:induction false} SumDrawsBounds(draw: Oracle, offset: nat, count: nat, sides: nat)
    requires FairDraws(draw, offset, count, sides)
    ensures count <= SumDraws(draw, offset, count, sides) <= count * sides
    decreases count
  {
    if count > 0 {
      SumDrawsBounds(draw, offset + 1, count - 1, sides);
    }
  }

  /** A successful roll: its value and how many oracle draws it used. */
  datatype Roll = Roll(value: int, draws: nat)

  /** Evaluating the prepared expression (dice_roll.py:18-29). */
  function Evaluate(expr: string, draw: Oracle, offset: nat): (r: Result<Roll>)
    ensures r.Fail? ==> r.error == ValueError
    ensures r.Fail? <==> (ParseDice(expr).None? && ParseInt(expr).None?)
                         || (ParseDice(expr).Some? && ParseDice(expr).value.count > 0 && ParseDice(expr).value.sides == 0)
    ensures ParseDice(expr).None? && ParseInt(expr).Some? ==> r == Ok(Roll(ParseInt(expr).value, 0))
    ensures r.Ok? && r.value.draws > 0 ==> ParseDice(expr).Some? && r.value.draws == ParseDice(expr).value.count
  {
    match ParseDice(expr)
    case Some(d) =>
      if d.count > 0 && d.sides == 0 then Fail(ValueError)  // randint(1, 0) raises
      else Ok(Roll(SumDraws(draw, offset, d.count, d.sides) + d.modifier, d.count))
    case None =>
      match ParseInt(expr)
      case Some(v) => Ok(Roll(v, 0))
      case None => Fail(ValueError)
  }

  function RollFormula(formula: string, vars: map<string, int>, draw: Oracle, offset: nat): (r: Result<Roll>)
    ensures Expression(formula, vars).Fail? ==> r.Fail?
  {
    match Expression(formula, vars)
    case Fail(e) => Fail(e)
    case Ok(expr) => Evaluate(expr, draw, offset)
  }

  /** For `NdS[+-M]` the result lies in `[N + M, N * S + M]` and uses N draws. */
  lemma DiceRollBounds(formula: string, vars: map<string, int>, draw: Oracle, offset: nat, d: DiceSpec)
    requires Expression(formula, vars).Ok? && ParseDice(Expression(formula, vars).value) == Some(d)
    requires d.sides > 0 && FairDraws(draw, offset, d.count, d.sides)
    ensures RollFormula(formula, vars, draw, offset).Ok?
    ensures var v := RollFormula(formula, vars, draw, offset).value;
            v.draws == d.count && d.count + d.modifier <= v.value <= d.count * d.sides + d.modifier
  {
    SumDrawsBounds(draw, offset, d.count, d.sides);
  }

  /** Text made of digits and `-` is unchanged by normalisation. */
  lemma NormaliseNumber(s: string)
    requires forall k :: 0 <= k < |s| ==> s[k] == '-' || IsDigit(s[k])
    ensures Normalise(s) == s
  {
    assert Lower(s) == s;
    assert ReplaceChar(s, 'д', 'd') == s;
    assert ReplaceChar(s, 'к', 'd') == s;
    RemoveCharKeeps(s, ' ');
  }

  lemma NotDice(s: string)
    requires forall k :: 0 <= k < |s| ==> s[k] != 'd'
    ensures ParseDice(s) == None
  {
  }

  /** A plain integer formula is its own value and uses no draw. */
  lemma PlainIntegerRoll(n: int, draw: Oracle, offset: nat)
    ensures RollFormula(IntToString(n), map[], draw, offset) == Ok(Roll(n, 0))
  {
    var s := IntToString(n);
    assert forall k :: 0 <= k < |s| ==> s[k] == '-' || IsDigit(s[k]);
    NumberExpression(s);
    NotDice(s);
    IntToStringRoundTrip(n);
  }

  /** Text of digits and `-` is its own expression. */
  lemma NumberExpression(s: string)
    requires forall k :: 0 <= k < |s| ==> s[k] == '-' || IsDigit(s[k])
    ensures Expression(s, map[]) == Ok(s)
  {
    FormatPlain(s, Defaulted(map[], s));
    NormaliseNumber(s);
    NoParenGroup(s, 0);
  }

  lemma {:induction false} NoParenGroup(s: string, from: nat)
    requires forall k :: 0 <= k < |s| ==> s[k] != '('
    ensures ParenGroup(s, from) == None
    decreases |s| - from
  {
    if from < |s| { NoParenGroup(s, from + 1); }
  }

  /** A normalised bestiary hit-point string: only the part in
      parentheses is rolled. */
  lemma ParenExample()
    ensures ParenGroup("15(2d8+6)", 0) == Some("2d8+6")
  {
    var t := "15(2d8+6)";
    assert Find(t, ')', 3) == Some(8);
    assert t[3..8] == "2d8+6";
    assert ParenGroup(t, 2) == Some("2d8+6");
  }

  lemma DiceExample()
    ensures ParseDice("2d8+6") == Some(DiceSpec(2, 8, 6))
  {
    assert DigitPrefix("2d8+6") == 1;
    assert DigitPrefix("8+6") == 1;
    assert ParseModifier("+6") == Some(6);
  }
}
