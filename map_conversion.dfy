/**
 * `BaseLLM.convert_map` (aios/llm_cores/base.py): a new dict whose keys are
 * the input's keys passed through `int(...)`, filled in the input's order.
 */
module MapConversion {
  import opened Wrappers
  import opened PyText
  import opened OrderedDict

  /**
   * The characters `int()` skips around a number: those `str.isspace`
   * accepts, except the ASCII separators U+001C..U+001F, which `int()` rejects.
   */
  predicate IntSpace(c: char) {
    IsSpace(c) && !('\U{001C}' <= c <= '\U{001F}')
  }

  /** `int()`'s removal of leading whitespace. */
  function StripLeft(s: string): (r: string)
    ensures r == [] || !IntSpace(r[0])
  {
    if |s| > 0 && IntSpace(s[0]) then StripLeft(s[1..]) else s
  }

  /** `int()`'s removal of trailing whitespace. */
  function StripRight(s: string): (r: string)
    ensures r == [] || !IntSpace(r[|r| - 1])
  {
    if |s| > 0 && IntSpace(s[|s| - 1]) then StripRight(s[..|s| - 1]) else s
  }

  /** `sys.get_int_max_str_digits()` as Python starts: `int()` refuses more digits than this. */
  const MaxStrDigits: nat := 4300

  /** The digits of `d`, underscores not counted. */
  function DigitCount(d: string): nat {
    if |d| == 0 then 0
    else DigitCount(d[..|d| - 1]) + (if d[|d| - 1] == '_' then 0 else 1)
  }

  /** Decimal digits with single underscores between them, as `int()` accepts them. */
  predicate DigitGroups(d: string) {
    && |d| > 0 && IsDigit(d[0]) && IsDigit(d[|d| - 1])
    && (forall i :: 0 <= i < |d| ==> IsDigit(d[i]) || d[i] == '_')
    && (forall i :: 0 <= i < |d| - 1 ==> !(d[i] == '_' && d[i + 1] == '_'))
  }

  /** The number the digits of `d` spell, underscores skipped. */
  function DigitsValue(d: string): nat
    requires forall i :: 0 <= i < |d| ==> IsDigit(d[i]) || d[i] == '_'
  {
    if |d| == 0 then 0
    else if d[|d| - 1] == '_' then DigitsValue(d[..|d| - 1])
    else 10 * DigitsValue(d[..|d| - 1]) + DigitValue(d[|d| - 1])
  }

  /**
   * `int(k)` for a string key: surrounding whitespace, an optional sign, then
   * digit groups of at most `MaxStrDigits` digits; anything else raises
   * `ValueError` (here `None`).
   */
  function ParseInt(k: string): Option<int> {
    var t := StripRight(StripLeft(k));
    if |t| > 0 && (t[0] == '+' || t[0] == '-') then
      if DigitGroups(t[1..]) && DigitCount(t[1..]) <= MaxStrDigits then
        var magnitude: int := DigitsValue(t[1..]);
        Some(if t[0] == '-' then -magnitude else magnitude)
      else None
    else if DigitGroups(t) && DigitCount(t) <= MaxStrDigits then Some(DigitsValue(t))
    else None
  }

  lemma {:induction false} NatDigitsValue(n: nat)
    ensures DigitGroups(NatToString(n))
    ensures DigitsValue(NatToString(n)) == n
  {
    var s := NatToString(n);
    if n >= 10 {
      NatDigitsValue(n / 10);
      assert s[..|s| - 1] == NatToString(n / 10);
    }
  }

  /** A digit string without underscores counts every character as a digit. */
  lemma {:induction false} DigitCountAll(d: string)
    requires forall i :: 0 <= i < |d| ==> IsDigit(d[i])
    ensures DigitCount(d) == |d|
  {
    if |d| > 0 {
      DigitCountAll(d[..|d| - 1]);
    }
  }

  /**
   * `int(str(n)) == n` for every integer `str` can write: `str` itself
   * refuses integers of more than `MaxStrDigits` digits.
   */
  lemma IntRoundTrip(n: int)
    requires |IntToString(n)| <= MaxStrDigits + (if n < 0 then 1 else 0)
    ensures ParseInt(IntToString(n)) == Some(n)
  {
    if n < 0 {
      var m: nat := -n;
      assert IntToString(n) == "-" + NatToString(m);
      NegativeRoundTrip(m);
    } else {
      assert IntToString(n) == NatToString(n);
      NatRoundTrip(n);
    }
  }

  /** Text with no whitespace at either end is left alone by stripping. */
  lemma Unstripped(s: string)
    requires |s| > 0 && !IntSpace(s[0]) && !IntSpace(s[|s| - 1])
    ensures StripRight(StripLeft(s)) == s
  {
  }

  lemma NatRoundTrip(n: nat)
    requires |NatToString(n)| <= MaxStrDigits
    ensures ParseInt(NatToString(n)) == Some(n)
  {
    var s := NatToString(n);
    Unstripped(s);
    NatDigitsValue(n);
    DigitCountAll(s);
    assert s[0] != '+' && s[0] != '-';
  }

  lemma NegativeRoundTrip(m: nat)
    requires m > 0 && |NatToString(m)| <= MaxStrDigits
    ensures ParseInt("-" + NatToString(m)) == Some(-(m as int))
  {
    var d := NatToString(m);
    var s := "-" + d;
    assert s[1..] == d && s[|s| - 1] == d[|d| - 1];
    NatDigitsValue(m);
    DigitCountAll(d);
    NegativeText(s);
  }

  /** A minus sign followed by at most `MaxStrDigits` digits in groups reads as the negated digits. */
  lemma NegativeText(s: string)
    requires |s| > 1 && s[0] == '-' && DigitGroups(s[1..]) && DigitCount(s[1..]) <= MaxStrDigits
    ensures ParseInt(s) == Some(-(DigitsValue(s[1..]) as int))
  {
    assert s[|s| - 1] == s[1..][|s| - 2];
    Unstripped(s);
  }

  /** A number of more than `MaxStrDigits` digits is refused, whatever its value. */
  lemma TooManyDigits(n: nat)
    requires |NatToString(n)| > MaxStrDigits
    ensures ParseInt(NatToString(n)) == None
  {
    var s := NatToString(n);
    Unstripped(s);
    DigitCountAll(s);
    assert s[0] != '+' && s[0] != '-';
  }

  /** The ASCII separators U+001C..U+001F are not skipped: `int("\x1c1")` raises. */
  lemma SeparatorNotSkipped()
    ensures ParseInt("\U{001C}1") == None
  {
    var k := "\U{001C}1";
    assert !IntSpace(k[0]) && !IntSpace(k[1]);
    assert StripRight(StripLeft(k)) == k;
    assert !IsDigit(k[0]);
  }

  /** The loop from entry `i` on, with the dict built so far in `acc`. */
  function ConvertFrom<V>(entries: seq<(string, V)>, i: nat, acc: seq<(int, V)>): Result<seq<(int, V)>>
    requires i <= |entries|
    decreases |entries| - i
  {
    if i == |entries| then Ok(acc)
    else match ParseInt(entries[i].0)
      case None => Err(ValueError)
      case Some(k) => ConvertFrom(entries, i + 1, Put(acc, k, entries[i].1))
  }

  /** The value of the last entry whose key converts to `k`, if any: what "the later entry wins" means. */
  function LastValueFor<V>(entries: seq<(string, V)>, k: int): Option<V> {
    if |entries| == 0 then None
    else
      var later := LastValueFor(entries[1..], k);
      if later.Some? then later
      else if ParseInt(entries[0].0) == Some(k) then Some(entries[0].1)
      else None
  }

  /**
   * The loop succeeds exactly when every remaining key converts; the result
   * then holds, for each integer, the value of the last remaining entry
   * converting to it, or else what `acc` held; its keys stay unique.
   */
  lemma {:induction false} ConvertFromResult<V>(entries: seq<(string, V)>, i: nat, acc: seq<(int, V)>, k: int)
    requires i <= |entries|
    requires UniqueKeys(acc)
    ensures ConvertFrom(entries, i, acc).Ok? <==> forall t :: i <= t < |entries| ==> ParseInt(entries[t].0).Some?
    ensures ConvertFrom(entries, i, acc).Ok? ==>
              && UniqueKeys(ConvertFrom(entries, i, acc).value)
              && Get(ConvertFrom(entries, i, acc).value, k) ==
                   if LastValueFor(entries[i..], k).Some? then LastValueFor(entries[i..], k) else Get(acc, k)
    decreases |entries| - i
  {
    if i < |entries| {
      var p := ParseInt(entries[i].0);
      if p.Some? {
        var acc' := Put(acc, p.value, entries[i].1);
        PutKeepsUniqueKeys(acc, p.value, entries[i].1);
        PutThenGet(acc, p.value, entries[i].1, k);
        ConvertFromResult(entries, i + 1, acc', k);
        assert entries[i..][1..] == entries[i + 1..];
      }
    }
  }

  /**
   * `convert_map` fails exactly when some key does not convert; otherwise each
   * integer maps to the value of the last entry whose key converts to it, and
   * every key occurs once.
   */
  lemma ConvertMapMeaning<V>(entries: seq<(string, V)>, k: int)
    ensures ConvertFrom(entries, 0, []).Ok? <==> forall t :: 0 <= t < |entries| ==> ParseInt(entries[t].0).Some?
    ensures ConvertFrom(entries, 0, []).Ok? ==>
              && UniqueKeys(ConvertFrom(entries, 0, []).value)
              && Get(ConvertFrom(entries, 0, []).value, k) == LastValueFor(entries, k)
  {
    ConvertFromResult(entries, 0, [], k);
    assert entries[0..] == entries;
  }

  /** Two keys spelling the same integer collapse into one entry holding the later value. */
  lemma CollidingKeys(a: string, b: string)
    ensures ConvertFrom([("1", a), (" +1", b)], 0, []) == Ok([(1, b)])
  {
    assert StripLeft("1") == "1" && StripRight("1") == "1";
    assert DigitGroups("1") && DigitsValue("1") == 1;
    assert ParseInt("1") == Some(1);
    assert IntSpace(' ') && StripLeft(" +1") == StripLeft(" +1"[1..]);
    assert " +1"[1..] == "+1";
    assert StripLeft("+1") == "+1" && StripRight("+1") == "+1";
    assert "+1"[1..] == "1";
    assert ParseInt(" +1") == Some(1);
    var es := [("1", a), (" +1", b)];
    assert Put([], 1, a) == [(1, a)];
    assert Put([(1, a)], 1, b) == [(1, b)];
    assert ConvertFrom(es, 2, [(1, b)]) == Ok([(1, b)]);
    assert ConvertFrom(es, 1, [(1, a)]) == Ok([(1, b)]);
  }

  /**
   * `convert_map`: the input (a list of entries, in dict order) is only read;
   * the result is a new dict.
   */
  method ConvertMap<V>(entries: seq<(string, V)>) returns (r: Result<seq<(int, V)>>)
    ensures r == ConvertFrom(entries, 0, [])
  {
    var converted: seq<(int, V)> := [];
    var i := 0;
    while i < |entries|
      invariant 0 <= i <= |entries|
      invariant ConvertFrom(entries, i, converted) == ConvertFrom(entries, 0, [])
    {
      var (key, value) := entries[i];
      var k := ParseInt(key);
      if k.None? {
        return Err(ValueError);
      }
      converted := Put(converted, k.value, value);
      i := i + 1;
    }
    r := Ok(converted);
  }
}
