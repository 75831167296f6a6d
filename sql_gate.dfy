/** The safety gate that decides whether an AI-generated SQL text may run
    (`MakeSureSelectQueryOnly`). The text is trimmed; it passes only when it
    starts with SELECT, contains EXEC nowhere (both ignoring case) and holds
    at most one semicolon. White space and case are the ASCII ones. */
module SqlGate {

  const SelectKeyword: string := "SELECT"
  const ExecKeyword: string := "EXEC"

  /** The white-space characters `Trim` removes (ASCII subset). */
  predicate IsWhitespace(c: char)
  {
    c == ' ' || c == '\t' || c == '\n' || c == '\r' || c == '\U{B}' || c == '\U{C}'
  }

  /** Every character of `s` in positions `lo` up to `hi` is white space. */
  predicate WhitespaceBetween(s: string, lo: int, hi: int)
    requires 0 <= lo && hi <= |s|
  {
    forall j :: lo <= j < hi ==> IsWhitespace(s[j])
  }

  predicate AllWhitespace(s: string)
  {
    WhitespaceBetween(s, 0, |s|)
  }

  /** Upper-case mapping used by ordinal case-insensitive comparison. */
  function Upper(c: char): char
  {
    if 'a' <= c <= 'z' then (c as int - 'a' as int + 'A' as int) as char else c
  }

  /** `needle` occurs in `s` at position `k`, ignoring case. */
  predicate MatchAt(s: string, needle: string, k: nat)
  {
    k + |needle| <= |s| && forall i :: 0 <= i < |needle| ==> Upper(s[k + i]) == Upper(needle[i])
  }

  /** `StartsWith(prefix, StringComparison.OrdinalIgnoreCase)`. */
  predicate StartsWithIgnoreCase(s: string, prefix: string)
  {
    MatchAt(s, prefix, 0)
  }

  /** `Contains(needle, StringComparison.OrdinalIgnoreCase)`. */
  predicate ContainsIgnoreCase(s: string, needle: string)
  {
    exists k: nat | k <= |s| :: MatchAt(s, needle, k)
  }

  /** The first position at or after `i` that is not white space, or `|s|`. */
  function SkipLeading(s: string, i: nat): (k: nat)
    requires i <= |s|
    ensures i <= k <= |s|
    decreases |s| - i
  {
    if i < |s| && IsWhitespace(s[i]) then SkipLeading(s, i + 1) else i
  }

  /** The position just after the last character before `j` that is not
      white space, but never below `lo`. */
  function SkipTrailing(s: string, lo: nat, j: nat): (k: nat)
    requires lo <= j <= |s|
    ensures lo <= k <= j
    decreases j - lo
  {
    if lo < j && IsWhitespace(s[j - 1]) then SkipTrailing(s, lo, j - 1) else j
  }

  /** Where the trimmed text starts in `s`. */
  function TrimStart(s: string): nat
  {
    SkipLeading(s, 0)
  }

  /** Where the trimmed text ends in `s`. */
  function TrimEnd(s: string): nat
  {
    SkipTrailing(s, TrimStart(s), |s|)
  }

  /** `string.Trim()`: the slice of `s` left once the white space at both
      ends is removed. */
  function Trim(s: string): (r: string)
    ensures |r| <= |s|
  {
    s[TrimStart(s)..TrimEnd(s)]
  }

  /** The number of occurrences of `c` in `s`, as `Count(x => x == c)`. */
  function CountChar(s: string, c: char): nat
  {
    if s == [] then 0 else (if s[0] == c then 1 else 0) + CountChar(s[1..], c)
  }

  /** The check of `MakeSureSelectQueryOnly` as written: the prefix and
      keyword tests read the trimmed `query`, while the semicolons are
      counted in `countedText`, which is the page's `Query` field. */
  predicate PassesGate(query: string, countedText: string): (ok: bool)
    ensures ok ==> |SelectKeyword| <= |Trim(query)| <= |query|
  {
    var t := Trim(query);
    StartsWithIgnoreCase(t, SelectKeyword) && !ContainsIgnoreCase(t, ExecKeyword)
      && CountChar(countedText, ';') <= 1
  }

  /** The gate applied to one text, which is how the page calls it. */
  predicate IsSelectOnly(sql: string)
  {
    PassesGate(sql, sql)
  }

  /** The text starts, after white space only, with SELECT in any case. */
  ghost predicate SelectFirst(q: string)
  {
    exists k: nat :: k <= |q| && WhitespaceBetween(q, 0, k) && MatchAt(q, SelectKeyword, k)
  }

  // ---------------------------------------------------------------------
  // Counting and trimming

  lemma {:induction false} CountCharIsMultiplicity(s: string, c: char)
    ensures CountChar(s, c) == multiset(s)[c]
  {
    if s != [] {
      assert s == [s[0]] + s[1..];
      CountCharIsMultiplicity(s[1..], c);
    }
  }

  /** The leading scan passes over white space only and stops at a
      character that is not white space, or at the end. */
  lemma {:induction false} SkipLeadingSkipsWhitespace(s: string, i: nat)
    requires i <= |s|
    ensures WhitespaceBetween(s, i, SkipLeading(s, i))
    ensures SkipLeading(s, i) == |s| || !IsWhitespace(s[SkipLeading(s, i)])
    decreases |s| - i
  {
    if i < |s| && IsWhitespace(s[i]) {
      SkipLeadingSkipsWhitespace(s, i + 1);
    }
  }

  /** The trailing scan passes over white space only and stops just after a
      character that is not white space, or at `lo`. */
  lemma {:induction false} SkipTrailingSkipsWhitespace(s: string, lo: nat, j: nat)
    requires lo <= j <= |s|
    ensures WhitespaceBetween(s, SkipTrailing(s, lo, j), j)
    ensures SkipTrailing(s, lo, j) == lo || !IsWhitespace(s[SkipTrailing(s, lo, j) - 1])
    decreases j - lo
  {
    if lo < j && IsWhitespace(s[j - 1]) {
      SkipTrailingSkipsWhitespace(s, lo, j - 1);
    }
  }

  /** What `Trim` returns: the slice between two white-space margins, which
      neither starts nor ends with white space. */
  lemma TrimShape(s: string)
    ensures TrimStart(s) <= TrimEnd(s) <= |s| && Trim(s) == s[TrimStart(s)..TrimEnd(s)]
    ensures WhitespaceBetween(s, 0, TrimStart(s)) && WhitespaceBetween(s, TrimEnd(s), |s|)
    ensures Trim(s) == [] || (!IsWhitespace(Trim(s)[0]) && !IsWhitespace(Trim(s)[|Trim(s)| - 1]))
  {
    SkipLeadingSkipsWhitespace(s, 0);
    SkipTrailingSkipsWhitespace(s, TrimStart(s), |s|);
  }

  /** Leading white space ends at the first character that is not white
      space, wherever the scan starts before it. */
  lemma {:induction false} SkipLeadingStopsAt(s: string, i: nat, k: nat)
    requires i <= k <= |s| && WhitespaceBetween(s, i, k)
    requires k == |s| || !IsWhitespace(s[k])
    ensures SkipLeading(s, i) == k
    decreases k - i
  {
    if i < k {
      SkipLeadingStopsAt(s, i + 1, k);
    }
  }

  lemma {:induction false} SkipTrailingStopsAt(s: string, lo: nat, j: nat, k: nat)
    requires lo <= k <= j <= |s| && WhitespaceBetween(s, k, j)
    requires k == lo || !IsWhitespace(s[k - 1])
    ensures SkipTrailing(s, lo, j) == k
    decreases j - k
  {
    if k < j {
      SkipTrailingStopsAt(s, lo, j - 1, k);
    }
  }

  /** Trim gives back exactly the text between white-space margins, as long
      as that text neither starts nor ends with white space. */
  lemma TrimOfPadded(w1: string, x: string, w2: string)
    requires AllWhitespace(w1) && AllWhitespace(w2)
    requires x == [] || (!IsWhitespace(x[0]) && !IsWhitespace(x[|x| - 1]))
    ensures Trim(w1 + x + w2) == x
  {
    var s := w1 + x + w2;
    var a := if x == [] then |s| else |w1|;
    var b := if x == [] then |s| else |w1| + |x|;
    assert WhitespaceBetween(s, 0, a) by {
      forall j | 0 <= j < a ensures IsWhitespace(s[j]) {
        if j >= |w1| { assert s[j] == w2[j - |w1|]; }
      }
    }
    SkipLeadingStopsAt(s, 0, a);
    assert WhitespaceBetween(s, b, |s|) by {
      forall j | b <= j < |s| ensures IsWhitespace(s[j]) {
        assert s[j] == w2[j - |w1| - |x|];
      }
    }
    if x != [] {
      assert s[b - 1] == x[|x| - 1];
    }
    SkipTrailingStopsAt(s, a, |s|, b);
    assert s[a..b] == x;
  }

  /** Trimming twice is trimming once. */
  lemma TrimIdempotent(s: string)
    ensures Trim(Trim(s)) == Trim(s)
  {
    TrimShape(s);
    var r := Trim(s);
    assert [] + r + [] == r;
    TrimOfPadded([], r, []);
  }

  /** Extra white space around a text changes nothing that Trim returns. */
  lemma TrimIgnoresPadding(w1: string, q: string, w2: string)
    requires AllWhitespace(w1) && AllWhitespace(w2)
    ensures Trim(w1 + q + w2) == Trim(q)
  {
    TrimShape(q);
    var r, i, j := Trim(q), TrimStart(q), TrimEnd(q);
    var a, b := q[..i], q[j..];
    assert q[..j] == a + r;
    assert q == a + r + b by { assert q == q[..j] + b; }
    assert w1 + q + w2 == (w1 + a) + r + (b + w2);
    assert AllWhitespace(w1 + a) && AllWhitespace(b + w2);
    TrimOfPadded(w1 + a, r, b + w2);
  }

  // ---------------------------------------------------------------------
  // The gate

  /** A needle none of whose characters can match white space. */
  predicate Solid(needle: string)
  {
    forall i :: 0 <= i < |needle| ==> !IsWhitespace(Upper(needle[i]))
  }

  /** An occurrence of a solid needle in `s` lies within the trimmed text. */
  lemma MatchInsideTrim(s: string, needle: string, k: nat)
    requires Solid(needle) && needle != [] && MatchAt(s, needle, k)
    ensures TrimStart(s) <= k && k + |needle| <= TrimEnd(s)
  {
    TrimShape(s);
    assert Upper(s[k]) == Upper(needle[0]);
    var last := k + |needle| - 1;
    assert Upper(s[last]) == Upper(needle[|needle| - 1]);
  }

  /** A solid needle occurs in the trimmed text exactly when it occurs in
      the text. */
  lemma ContainsAfterTrim(q: string, needle: string)
    requires Solid(needle) && needle != []
    ensures ContainsIgnoreCase(Trim(q), needle) <==> ContainsIgnoreCase(q, needle)
  {
    TrimShape(q);
    var t, a := Trim(q), TrimStart(q);
    if ContainsIgnoreCase(t, needle) {
      var j: nat :| j <= |t| && MatchAt(t, needle, j);
      assert MatchAt(q, needle, a + j) by {
        forall p | a + j <= p < a + j + |needle| ensures q[p] == t[p - a] { }
      }
    }
    if ContainsIgnoreCase(q, needle) {
      var j: nat :| j <= |q| && MatchAt(q, needle, j);
      MatchInsideTrim(q, needle, j);
      assert MatchAt(t, needle, j - a) by {
        forall p | j - a <= p < j - a + |needle| ensures t[p] == q[p + a] { }
      }
    }
  }

  /** A solid prefix starts the trimmed text exactly when it starts the
      text after its leading white space. */
  lemma StartsAfterTrim(q: string, prefix: string)
    requires Solid(prefix) && prefix != []
    ensures StartsWithIgnoreCase(Trim(q), prefix)
        <==> exists k: nat :: k <= |q| && WhitespaceBetween(q, 0, k) && MatchAt(q, prefix, k)
  {
    TrimShape(q);
    var t, a := Trim(q), TrimStart(q);
    if StartsWithIgnoreCase(t, prefix) {
      assert MatchAt(q, prefix, a) by {
        forall i | 0 <= i < |prefix| ensures q[a + i] == t[i] { }
      }
    }
    if exists k: nat :: k <= |q| && WhitespaceBetween(q, 0, k) && MatchAt(q, prefix, k) {
      var k: nat :| k <= |q| && WhitespaceBetween(q, 0, k) && MatchAt(q, prefix, k);
      MatchInsideTrim(q, prefix, k);
      assert MatchAt(t, prefix, 0) by {
        forall i | 0 <= i < |prefix| ensures t[i] == q[k + i] { }
      }
    }
  }

  /** The gate in terms of the untrimmed text: it passes exactly when the
      text starts with SELECT after white space only, contains EXEC
      nowhere, and the counted text holds at most one semicolon. */
  lemma GateMeaning(query: string, countedText: string)
    ensures PassesGate(query, countedText)
        <==> SelectFirst(query) && !ContainsIgnoreCase(query, ExecKeyword)
             && multiset(countedText)[';'] <= 1
  {
    StartsAfterTrim(query, SelectKeyword);
    ContainsAfterTrim(query, ExecKeyword);
    CountCharIsMultiplicity(countedText, ';');
  }

  /** A text that does not start with SELECT is refused. */
  lemma RejectsWithoutSelect(sql: string)
    requires !SelectFirst(sql)
    ensures !IsSelectOnly(sql)
  {
    GateMeaning(sql, sql);
  }

  /** A text containing EXEC anywhere is refused, even after a SELECT. */
  lemma RejectsExecAnywhere(sql: string)
    requires ContainsIgnoreCase(sql, ExecKeyword)
    ensures !IsSelectOnly(sql)
  {
    GateMeaning(sql, sql);
  }

  /** A text with two or more semicolons is refused. */
  lemma RejectsStackedStatements(sql: string)
    requires multiset(sql)[';'] >= 2
    ensures !IsSelectOnly(sql)
  {
    GateMeaning(sql, sql);
  }

  /** A text that starts with SELECT, has no EXEC and at most one semicolon
      is let through. */
  lemma AcceptsSingleSelect(sql: string)
    requires SelectFirst(sql) && !ContainsIgnoreCase(sql, ExecKeyword)
    requires multiset(sql)[';'] <= 1
    ensures IsSelectOnly(sql)
  {
    GateMeaning(sql, sql);
  }

  /** Surrounding a text with white space never changes the verdict. */
  lemma PaddingIgnored(w1: string, sql: string, w2: string)
    requires AllWhitespace(w1) && AllWhitespace(w2)
    ensures IsSelectOnly(w1 + sql + w2) == IsSelectOnly(sql)
  {
    TrimIgnoresPadding(w1, sql, w2);
    CountCharIsMultiplicity(w1 + sql + w2, ';');
    CountCharIsMultiplicity(sql, ';');
    assert multiset(w1)[';'] == 0 && multiset(w2)[';'] == 0;
    assert multiset(w1 + sql + w2) == multiset(w1) + multiset(sql) + multiset(w2);
  }

  // ---------------------------------------------------------------------
  // Examples

  /** Without an X there is no EXEC. */
  lemma NoExecWithoutX(s: string)
    requires forall i :: 0 <= i < |s| ==> Upper(s[i]) != 'X'
    ensures !ContainsIgnoreCase(s, ExecKeyword)
  {
    forall k: nat | k + |ExecKeyword| <= |s| ensures !MatchAt(s, ExecKeyword, k) {
      assert Upper(s[k + 1]) != Upper(ExecKeyword[1]);
    }
  }

  /** A character found only at position `p` occurs at most once. */
  lemma OnlyAt(s: string, c: char, p: nat)
    requires p < |s| && forall i :: 0 <= i < |s| && i != p ==> s[i] != c
    ensures multiset(s)[c] <= 1
  {
    assert s == s[..p] + [s[p]] + s[p + 1..];
    assert c !in s[..p] && c !in s[p + 1..];
  }

  /** A character found at two positions occurs at least twice. */
  lemma TwiceAt(s: string, c: char, i: nat, j: nat)
    requires i < j < |s| && s[i] == c && s[j] == c
    ensures multiset(s)[c] >= 2
  {
    assert s == s[..j] + s[j..];
    assert s[..j][i] == c && s[j..][0] == c;
    assert c in s[..j] && c in s[j..];
  }

  /** A text that starts with SELECT, has no letter X and has a semicolon
      at position `p` at most is let through. */
  lemma AcceptsPlainSelect(s: string, p: nat)
    requires MatchAt(s, SelectKeyword, 0)
    requires forall i :: 0 <= i < |s| ==> Upper(s[i]) != 'X'
    requires p < |s| && forall i :: 0 <= i < |s| && i != p ==> s[i] != ';'
    ensures IsSelectOnly(s)
  {
    assert WhitespaceBetween(s, 0, 0);
    NoExecWithoutX(s);
    OnlyAt(s, ';', p);
    AcceptsSingleSelect(s);
  }

  /** A single statement ending in a semicolon is let through. */
  lemma AcceptsTerminatedSelect()
    ensures IsSelectOnly("SELECT * FROM T;")
  {
    AcceptsPlainSelect("SELECT * FROM T;", 15);
  }

  /** One semicolon is allowed even when it separates two statements. */
  lemma AcceptsTwoStatements()
    ensures IsSelectOnly("SELECT 1; SELECT 2")
  {
    AcceptsPlainSelect("SELECT 1; SELECT 2", 8);
  }

  /** SELECT is tested as a prefix, not as a word: a text whose first word
      merely begins with SELECT is let through. */
  lemma AcceptsSelectAsPrefixOfWord()
    ensures IsSelectOnly("SELECTED_ROWS FROM t")
  {
    AcceptsPlainSelect("SELECTED_ROWS FROM t", 0);
  }

  lemma RejectsExecuteAfterSelect()
    ensures !IsSelectOnly("SELECT 1 EXECUTE x")
  {
    var s := "SELECT 1 EXECUTE x";
    assert MatchAt(s, ExecKeyword, 9);
    RejectsExecAnywhere(s);
  }

  lemma RejectsStoredProcedureCall()
    ensures !IsSelectOnly("EXEC sp_DeleteAll")
  {
    var s := "EXEC sp_DeleteAll";
    assert MatchAt(s, ExecKeyword, 0);
    RejectsExecAnywhere(s);
  }

  lemma RejectsDropAfterSelect()
    ensures !IsSelectOnly("select * from Users; DROP TABLE Users;")
  {
    var s := "select * from Users; DROP TABLE Users;";
    TwiceAt(s, ';', 19, 37);
    RejectsStackedStatements(s);
  }
}
