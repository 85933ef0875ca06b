/**
 * The numeric entry of NumEntry.py. On Return or focus-out its text is
 * filtered by a character class and, in expression mode, handed to an
 * evaluator: a result replaces the text and becomes the last good value, a
 * failure puts the last good value back.
 */
module NumEntries {
  import opened Values

  // ---------------------------------------------------------------------
  // The character filters (`re.sub("[^...]", "", text)`)
  // ---------------------------------------------------------------------

  /** The characters of s that satisfy keep, in their order: `re.sub` with a negated class and "". */
  function Keep(s: string, keep: char -> bool): (r: string)
    ensures |r| <= |s|
    ensures forall i :: 0 <= i < |r| ==> keep(r[i])
  {
    if s == [] then []
    else (if keep(s[0]) then [s[0]] else []) + Keep(s[1..], keep)
  }

  /** `[^0-9]`: the characters integer mode keeps. */
  predicate IsIntegerChar(c: char) {
    IsDigit(c)
  }

  /** `[^0-9, .]`: the characters float mode keeps (digits, ',', ' ' and '.'). */
  predicate IsNumberChar(c: char) {
    IsDigit(c) || c == ',' || c == ' ' || c == '.'
  }

  /**
   * `[^0-9, +, -, *, /, .]`: inside the class ` -,` is a range from ' ' to
   * ',', so the class holds the digits, every character from ' ' to ','
   * (among them '(', ')', '*' and '+'), '/' and '.'; '-' itself is not in it.
   */
  predicate IsExpressionChar(c: char) {
    IsDigit(c) || (' ' <= c <= ',') || c == '/' || c == '.'
  }

  function IntegerText(s: string): string { Keep(s, IsIntegerChar) }
  function NumberText(s: string): string { Keep(s, IsNumberChar) }
  function ExpressionText(s: string): string { Keep(s, IsExpressionChar) }

  /** Filtering only deletes characters. */
  lemma {:induction false} KeepIsSubsequence(s: string, keep: char -> bool)
    ensures IsSubsequence(Keep(s, keep), s)
  {
    if s != [] {
      KeepIsSubsequence(s[1..], keep);
      if keep(s[0]) {
        assert ([s[0]] + Keep(s[1..], keep))[1..] == Keep(s[1..], keep);
      } else {
        assert Keep(s, keep) == Keep(s[1..], keep);
      }
    }
  }

  /** Filtering keeps every occurrence of every character the class admits, and only those. */
  lemma {:induction false} KeepCounts(s: string, keep: char -> bool, c: char)
    ensures multiset(Keep(s, keep))[c] == if keep(c) then multiset(s)[c] else 0
  {
    if s != [] {
      KeepCounts(s[1..], keep, c);
      assert s == [s[0]] + s[1..];
      assert multiset(s) == multiset([s[0]]) + multiset(s[1..]);
    }
  }

  /** A text made only of admitted characters passes the filter unchanged. */
  lemma {:induction false} KeepAllAdmitted(s: string, keep: char -> bool)
    requires forall i :: 0 <= i < |s| ==> keep(s[i])
    ensures Keep(s, keep) == s
  {
    if s != [] {
      KeepAllAdmitted(s[1..], keep);
    }
  }

  /** Filtering a second time changes nothing. */
  lemma FilterIdempotent(s: string, keep: char -> bool)
    ensures Keep(Keep(s, keep), keep) == Keep(s, keep)
  {
    KeepAllAdmitted(Keep(s, keep), keep);
  }

  /** The expression filter drops '-', so "5-2" reaches the evaluator as "52". */
  lemma MinusIsDropped()
    ensures !IsExpressionChar('-')
    ensures ExpressionText("5-2") == "52"
  {
  }

  /** Parentheses, '*', '+' and '/' survive the expression filter. */
  lemma OperatorsSurvive()
    ensures ExpressionText("(1+2)*3/4") == "(1+2)*3/4"
  {
  }

  /** Integer mode turns the text into its digits, in order. */
  lemma IntegerTextIsTheDigits(s: string, c: char)
    ensures AllDigits(IntegerText(s))
    ensures IsSubsequence(IntegerText(s), s)
    ensures multiset(IntegerText(s))[c] == if IsDigit(c) then multiset(s)[c] else 0
  {
    KeepIsSubsequence(s, IsIntegerChar);
    KeepCounts(s, IsIntegerChar, c);
  }

  // ---------------------------------------------------------------------
  // The widget
  // ---------------------------------------------------------------------

  class NumEntry {
    /** the `expressions` and `allowfloats` options (their truthiness decides) */
    var expressions: Value
    var allowFloats: Value
    /** the entry's text */
    var text: string
    /** `_old`: the last value an evaluation produced, as the entry shows it */
    var lastGood: string
    /** `_new`: the latest value an evaluation produced */
    var latest: string

    /**
     * `NumEntry(master, expressions=True, allowfloats=False, **kwargs)`: the
     * two options with their defaults, an empty text and an empty last good
     * value. The other options go to the base entry and are not modelled.
     */
    constructor (opts: Options)
      ensures expressions == PopOr(opts, "expressions", Bool(true))
      ensures allowFloats == PopOr(opts, "allowfloats", Bool(false))
      ensures text == "" && lastGood == "" && latest == ""
    {
      expressions := PopOr(opts, "expressions", Bool(true));
      allowFloats := PopOr(opts, "allowfloats", Bool(false));
      text, lastGood, latest := "", "", "";
    }

    /**
     * `_eval`, bound to Return and FocusOut. `evaluate(expression, floats)`
     * stands for `eval` of the filtered text (rounded when floats are off),
     * giving the text of its result or None when it raises.
     */
    method Eval(evaluate: (string, bool) -> Option<string>)
      modifies this`text, this`lastGood, this`latest
      ensures Truthy(expressions) ==>
        var r := evaluate(ExpressionText(old(text)), Truthy(allowFloats));
        && (r.Some? ==> text == r.value && lastGood == r.value && latest == r.value)
        && (r.None? ==> text == old(lastGood) && lastGood == old(lastGood) && latest == old(latest))
      ensures !Truthy(expressions) ==>
        && text == (if Truthy(allowFloats) then NumberText(old(text)) else IntegerText(old(text)))
        && lastGood == old(lastGood) && latest == old(latest)
    {
      if Truthy(expressions) {
        var expression := ExpressionText(text);
        var r := evaluate(expression, Truthy(allowFloats));
        if r.Some? {
          latest := r.value;
          text := latest;
          lastGood := latest;
        } else {
          text := lastGood;
        }
      } else {
        if Truthy(allowFloats) {
          text := NumberText(text);
        } else {
          text := IntegerText(text);
        }
      }
    }

    /** `cget(key)`: the two options of the entry's own, anything else from the base entry. */
    function Cget(key: string): (r: Lookup)
      reads this
      ensures r.Found? <==> key == "allowfloats" || key == "expressions"
      ensures key == "allowfloats" ==> r == Found(allowFloats)
      ensures key == "expressions" ==> r == Found(expressions)
    {
      if key == "allowfloats" then Found(allowFloats)
      else if key == "expressions" then Found(expressions)
      else Delegated
    }
  }

  /**
   * An evaluation that fails after a good one restores the good value, and
   * keeps it for the next failure.
   */
  method FailureRestoresLastGood(evaluate: (string, bool) -> Option<string>) returns (first: string, second: string)
    requires evaluate("2*3", false) == Some("6")
    requires evaluate("2*", false).None?
    ensures first == "6" && second == "6"
  {
    var e := new NumEntry(map[]);
    e.text := "2*3";
    KeepAllAdmitted("2*3", IsExpressionChar);
    e.Eval(evaluate);
    first := e.text;
    e.text := "2*x";
    assert ExpressionText("2*x") == "2*" by {
      assert "2*x"[1..] == "*x";
      assert "2*x"[1..][1..] == "x";
    }
    e.Eval(evaluate);
    second := e.text;
  }
}
