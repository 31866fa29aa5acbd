/**
 * `prepare_script` from the MCP bridge's JavaScript executor: decides
 * whether a user script must have `return ` put in front of it so that the
 * async wrapper it is pasted into yields the script's value.
 */
module PrepareScript {

  const ReturnPrefix: string := "return "

  /** Rust's `char::is_whitespace`: the Unicode White_Space property. */
  predicate IsWhitespace(c: char) {
    var n := c as int;
    || (0x09 <= n <= 0x0D)
    || n == 0x20
    || n == 0x85
    || n == 0xA0
    || n == 0x1680
    || (0x2000 <= n <= 0x200A)
    || n == 0x2028
    || n == 0x2029
    || n == 0x202F
    || n == 0x205F
    || n == 0x3000
  }

  /** Every character of `s` in `[lo, hi)` is whitespace. */
  predicate WhitespaceBetween(s: string, lo: nat, hi: nat)
    requires lo <= hi <= |s|
  {
    forall k :: lo <= k < hi ==> IsWhitespace(s[k])
  }

  predicate AllWhitespace(s: string) {
    WhitespaceBetween(s, 0, |s|)
  }

  /** `str::starts_with` with a string pattern. */
  predicate StartsWith(s: string, prefix: string) {
    |prefix| <= |s| && s[..|prefix|] == prefix
  }

  /** `str::ends_with` with a string pattern. */
  predicate EndsWith(s: string, suffix: string) {
    |suffix| <= |s| && s[|s| - |suffix|..] == suffix
  }

  /** `str::trim_start` from position `i`: the index of the first non-whitespace character. */
  function SkipLeading(s: string, i: nat): (j: nat)
    requires i <= |s|
    ensures i <= j <= |s|
    ensures WhitespaceBetween(s, i, j)
    ensures j == |s| || !IsWhitespace(s[j])
    decreases |s| - i
  {
    if i < |s| && IsWhitespace(s[i]) then SkipLeading(s, i + 1) else i
  }

  /** `str::trim_end` down to position `lo`: the index just past the last non-whitespace character. */
  function SkipTrailing(s: string, lo: nat, j: nat): (k: nat)
    requires lo <= j <= |s|
    ensures lo <= k <= j
    ensures WhitespaceBetween(s, k, j)
    ensures k == lo || !IsWhitespace(s[k - 1])
  {
    if lo < j && IsWhitespace(s[j - 1]) then SkipTrailing(s, lo, j - 1) else j
  }

  /** How many whitespace characters `str::trim` drops from the front of `s`. */
  function LeadingWhitespace(s: string): (n: nat)
    ensures n <= |s|
  {
    SkipLeading(s, 0)
  }

  /**
   * `str::trim`: the slice of `s` that remains once the whitespace at both
   * ends is gone; it is empty exactly when `s` is all whitespace.
   */
  function Trim(s: string): (r: string)
    ensures LeadingWhitespace(s) + |r| <= |s|
    ensures r == s[LeadingWhitespace(s)..LeadingWhitespace(s) + |r|]
    ensures WhitespaceBetween(s, 0, LeadingWhitespace(s))
    ensures WhitespaceBetween(s, LeadingWhitespace(s) + |r|, |s|)
    ensures r == [] || (!IsWhitespace(r[0]) && !IsWhitespace(r[|r| - 1]))
    ensures r == [] <==> AllWhitespace(s)
  {
    var i := SkipLeading(s, 0);
    var j := SkipTrailing(s, i, |s|);
    assert i == j ==> i == |s|;
    s[i..j]
  }

  /** Multi-statement test, first half: a `;` other than one final `;`. */
  predicate HasRealSemicolons(t: string) {
    if EndsWith(t, ";") then ';' in t[..|t| - 1] else ';' in t
  }

  /** The script opens with a statement keyword. */
  predicate HasStatementKeyword(t: string) {
    || StartsWith(t, "const ")
    || StartsWith(t, "let ")
    || StartsWith(t, "var ")
    || StartsWith(t, "if ")
    || StartsWith(t, "for ")
    || StartsWith(t, "while ")
    || StartsWith(t, "function ")
    || StartsWith(t, "class ")
    || StartsWith(t, "try ")
  }

  predicate IsMultiStatement(t: string) {
    HasRealSemicolons(t) || HasStatementKeyword(t)
  }

  predicate IsSingleExpression(t: string) {
    || StartsWith(t, "await ")
    || StartsWith(t, "(")
    || StartsWith(t, "JSON.")
    || StartsWith(t, "{")
    || StartsWith(t, "[")
    || EndsWith(t, ")()")
  }

  predicate IsWrappedExpression(t: string) {
    || (StartsWith(t, "(") && EndsWith(t, ")"))
    || (StartsWith(t, "(") && EndsWith(t, ")()"))
    || (StartsWith(t, "JSON.") && EndsWith(t, ")"))
    || StartsWith(t, "await ")
  }

  /** The full rewrite decision, as the executor writes it. */
  predicate NeedsReturn(t: string) {
    !StartsWith(t, ReturnPrefix)
    && (IsSingleExpression(t) || IsWrappedExpression(t) || !IsMultiStatement(t))
  }

  /**
   * The script the wrapper runs: `return ` plus the trimmed script when the
   * decision says so, otherwise the caller's script exactly as given.
   */
  function PrepareScript(script: string): (r: string)
    ensures r == script || r == ReturnPrefix + Trim(script)
    ensures StartsWith(Trim(script), ReturnPrefix) ==> r == script
  {
    var trimmed := Trim(script);
    if NeedsReturn(trimmed) then ReturnPrefix + trimmed else script
  }

  /** The decision without the wrapped-expression test, which never matters. */
  predicate Rewrites(t: string) {
    !StartsWith(t, ReturnPrefix) && (IsSingleExpression(t) || !IsMultiStatement(t))
  }

  // ---------------------------------------------------------------------------
  // Lemmas about Trim
  // ---------------------------------------------------------------------------

  /** A string with no whitespace at either end is its own trim. */
  lemma TrimFixedPoint(s: string)
    requires s == [] || (!IsWhitespace(s[0]) && !IsWhitespace(s[|s| - 1]))
    ensures Trim(s) == s
  {
    assert SkipLeading(s, 0) == 0;
    assert SkipTrailing(s, 0, |s|) == |s|;
    assert s[0..|s|] == s;
  }

  /** Trimming twice is trimming once. */
  lemma TrimIdempotent(s: string)
    ensures Trim(Trim(s)) == Trim(s)
  {
    TrimFixedPoint(Trim(s));
  }

  // ---------------------------------------------------------------------------
  // Lemmas about PrepareScript
  // ---------------------------------------------------------------------------

  /** Every wrapped expression is already a single expression. */
  lemma WrappedIsSingle(t: string)
    ensures IsWrappedExpression(t) ==> IsSingleExpression(t)
  {
    if StartsWith(t, "(") && EndsWith(t, ")()") {
      assert EndsWith(t, ")()");
    }
  }

  /** Hence the wrapped-expression test can be dropped from the decision. */
  lemma NeedsReturnIsRewrites(t: string)
    ensures NeedsReturn(t) <==> Rewrites(t)
  {
    WrappedIsSingle(t);
  }

  /**
   * The exact behaviour: the output is the rewritten form precisely when
   * `Rewrites` holds of the trimmed script, and the input otherwise; the two
   * shapes never coincide.
   */
  lemma {:induction false} PrepareScriptExact(script: string)
    ensures PrepareScript(script)
            == if Rewrites(Trim(script)) then ReturnPrefix + Trim(script) else script
    ensures PrepareScript(script) == script <==> !Rewrites(Trim(script))
  {
    var t := Trim(script);
    NeedsReturnIsRewrites(t);
    if Rewrites(t) {
      RewrittenDiffersFromInput(script);
    }
  }

  /** `script` is never equal to `return ` followed by its own trim. */
  lemma RewrittenDiffersFromInput(script: string)
    ensures script != ReturnPrefix + Trim(script)
  {
    var t := Trim(script);
    var r := ReturnPrefix + t;
    assert r[0] == 'r';
    if t == [] {
      assert !AllWhitespace(r);
    } else {
      assert r[|r| - 1] == t[|t| - 1];
      TrimFixedPoint(r);
      assert |Trim(r)| != |t|;
    }
  }

  /** A script that already starts with `return ` (once trimmed) is kept as given. */
  lemma ReturnPrefixedKept(script: string)
    requires StartsWith(Trim(script), ReturnPrefix)
    ensures PrepareScript(script) == script
  {
  }

  /**
   * Single-expression patterns win: the script gets `return ` even when it
   * also looks like several statements.
   */
  lemma SingleExpressionGetsReturn(script: string)
    requires !StartsWith(Trim(script), ReturnPrefix)
    requires IsSingleExpression(Trim(script))
    ensures PrepareScript(script) == ReturnPrefix + Trim(script)
  {
  }

  /** No `;` anywhere but possibly in the last position. */
  predicate NoSemicolonBeforeEnd(t: string) {
    forall k :: 0 <= k < |t| - 1 ==> t[k] != ';'
  }

  /**
   * One final `;` is not a statement separator: a script with no other `;`
   * and no statement keyword is treated as an expression.
   */
  lemma {:induction false} TrailingSemicolonIsExpression(script: string)
    requires !StartsWith(Trim(script), ReturnPrefix)
    requires NoSemicolonBeforeEnd(Trim(script))
    requires !HasStatementKeyword(Trim(script))
    ensures !IsMultiStatement(Trim(script))
    ensures PrepareScript(script) == ReturnPrefix + Trim(script)
  {
    var t := Trim(script);
    if EndsWith(t, ";") {
      var body := t[..|t| - 1];
      forall k | 0 <= k < |body| ensures body[k] != ';' {
        assert body[k] == t[k];
      }
      assert ';' !in body;
    } else if t != [] {
      assert t[|t| - 1] != ';' by {
        assert t[|t| - 1..] != ";";
      }
      assert ';' !in t;
    }
  }

  /**
   * A statement-keyword or multi-semicolon script that matches no
   * single-expression pattern is passed through untouched.
   */
  lemma MultiStatementKept(script: string)
    requires IsMultiStatement(Trim(script))
    requires !IsSingleExpression(Trim(script))
    ensures PrepareScript(script) == script
  {
    WrappedIsSingle(Trim(script));
  }

  /** An all-whitespace script becomes exactly `return `. */
  lemma BlankBecomesBareReturn(script: string)
    requires AllWhitespace(script)
    ensures PrepareScript(script) == ReturnPrefix
  {
    assert Trim(script) == [];
  }

  /** Preparing a prepared script changes nothing, unless the script was blank. */
  lemma {:induction false} PrepareScriptIdempotent(script: string)
    requires !AllWhitespace(script)
    ensures PrepareScript(PrepareScript(script)) == PrepareScript(script)
  {
    var t := Trim(script);
    if PrepareScript(script) != script {
      var r := ReturnPrefix + t;
      assert PrepareScript(script) == r;
      assert r[0] == 'r';
      assert r[|r| - 1] == t[|t| - 1];
      TrimFixedPoint(r);
      assert StartsWith(Trim(r), ReturnPrefix) by {
        assert r[..|ReturnPrefix|] == ReturnPrefix;
      }
    }
  }

  /** `return ` trims to `return`. */
  lemma TrimReturnPrefix()
    ensures Trim(ReturnPrefix) == "return"
  {
    assert SkipLeading(ReturnPrefix, 0) == 0;
    assert SkipTrailing(ReturnPrefix, 0, 6) == 6;
    assert SkipTrailing(ReturnPrefix, 0, 7) == 6;
    assert ReturnPrefix[0..6] == "return";
  }

  /** `return` looks like neither a statement list nor a `return ` script. */
  lemma BareReturnIsExpression()
    ensures !StartsWith("return", ReturnPrefix)
    ensures !IsMultiStatement("return")
  {
    var bare := "return";
    assert bare[|bare| - 1..] != ";";
    assert forall k :: 0 <= k < |bare| ==> bare[k] != ';';
    assert ';' !in bare;
    forall p | p in ["const ", "let ", "var ", "if ", "for ", "while ", "function ", "class ", "try "]
      ensures !StartsWith(bare, p)
    {
      DifferentFirstChar(bare, p);
    }
  }

  lemma DifferentFirstChar(s: string, p: string)
    requires |s| > 0 && |p| > 0 && s[0] != p[0]
    ensures !StartsWith(s, p)
  {
    if |p| <= |s| {
      assert s[..|p|][0] != p[0];
    }
  }

  /** `return ` alone becomes `return return`. */
  lemma BareReturnRewritten()
    ensures PrepareScript(ReturnPrefix) == "return return"
  {
    TrimReturnPrefix();
    BareReturnIsExpression();
  }

  /** For a blank script idempotence fails: `return ` becomes `return return`. */
  lemma BlankNotIdempotent(script: string)
    requires AllWhitespace(script)
    ensures PrepareScript(PrepareScript(script)) == "return return"
    ensures PrepareScript(PrepareScript(script)) != PrepareScript(script)
  {
    BlankBecomesBareReturn(script);
    BareReturnRewritten();
  }

  // ---------------------------------------------------------------------------
  // A `return` without a following space is not recognised
  // ---------------------------------------------------------------------------

  lemma ReturnSemicolonIsExpression()
    ensures Trim("return;") == "return;"
    ensures !StartsWith("return;", ReturnPrefix)
    ensures !IsMultiStatement("return;")
  {
    var t := "return;";
    TrimFixedPoint(t);
    assert t[6] != ReturnPrefix[6];
    assert t[..6] == "return";
    assert forall k :: 0 <= k < 6 ==> t[..6][k] != ';';
    forall p | p in ["const ", "let ", "var ", "if ", "for ", "while ", "function ", "class ", "try "]
      ensures !StartsWith(t, p)
    {
      DifferentFirstChar(t, p);
    }
  }

  /** `return;` is already a return statement, yet it is rewritten into `return return;`. */
  lemma ReturnSemicolonDoubled()
    ensures PrepareScript("return;") == "return return;"
  {
    ReturnSemicolonIsExpression();
  }

  /**
   * The script already opens with a `return` statement: the keyword, then
   * the end of the script, whitespace, or a character that cannot continue
   * an identifier but can start its operand (a regular expression literal
   * included) or end the statement.
   */
  predicate IsReturnStatement(t: string) {
    StartsWith(t, "return")
    && (|t| == 6 || IsWhitespace(t[6]) || t[6] in ";([{\"'`!-+~/")
  }

  /** The decision with the keyword test above in place of the `return ` prefix test. */
  function PrepareScriptCorrected(script: string): (r: string)
    ensures r == script || r == ReturnPrefix + Trim(script)
    ensures IsReturnStatement(Trim(script)) ==> r == script
  {
    var trimmed := Trim(script);
    if !IsReturnStatement(trimmed) && (IsSingleExpression(trimmed) || !IsMultiStatement(trimmed))
    then ReturnPrefix + trimmed
    else script
  }

  /** The correction only matters where the script already returns. */
  lemma CorrectedAgrees(script: string)
    requires !IsReturnStatement(Trim(script))
    ensures PrepareScriptCorrected(script) == PrepareScript(script)
  {
    NeedsReturnIsRewrites(Trim(script));
    ReturnPrefixIsReturnStatement(Trim(script));
  }

  lemma ReturnPrefixIsReturnStatement(t: string)
    ensures StartsWith(t, ReturnPrefix) ==> IsReturnStatement(t)
  {
    if StartsWith(t, ReturnPrefix) {
      assert t[..6] == ReturnPrefix[..6] == "return";
      assert t[6] == ' ';
    }
  }

  /** The corrected rewrite is idempotent on every script, blank ones included. */
  lemma {:induction false} CorrectedIdempotent(script: string)
    ensures PrepareScriptCorrected(PrepareScriptCorrected(script)) == PrepareScriptCorrected(script)
  {
    var t := Trim(script);
    var r := PrepareScriptCorrected(script);
    if r != script {
      assert r == ReturnPrefix + t;
      if t == [] {
        assert r == ReturnPrefix;
        TrimReturnPrefix();
        assert IsReturnStatement("return");
      } else {
        assert r[0] == 'r';
        assert r[|r| - 1] == t[|t| - 1];
        TrimFixedPoint(r);
        assert r[..6] == "return" && IsWhitespace(r[6]);
      }
    }
  }
}
