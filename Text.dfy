/**
 * String helpers the dashboard applies to user text and chart labels:
 * JavaScript's String.prototype.trim, the five-entity HTML escaper
 * `escapeHtml`, and the code-unit order that Array.prototype.sort uses
 * on string keys when it is given no comparator.
 */
module Text {

  // ---------------------------------------------------------------------
  // Whitespace and trim
  // ---------------------------------------------------------------------

  /** The characters String.prototype.trim removes: WhiteSpace (tab,
      vertical tab, form feed, space, no-break space, byte-order mark and
      the other Zs space separators) and LineTerminator (LF, CR, LS, PS). */
  predicate IsWhitespace(c: char)
  {
    || c == '\t' || c == '\n' || c == '\U{000B}' || c == '\U{000C}' || c == '\r'
    || c == ' ' || c == '\U{00A0}' || c == '\U{1680}'
    || ('\U{2000}' <= c <= '\U{200A}')
    || c == '\U{2028}' || c == '\U{2029}' || c == '\U{202F}' || c == '\U{205F}'
    || c == '\U{3000}' || c == '\U{FEFF}'
  }

  predicate AllWhitespace(s: string)
  {
    forall i :: 0 <= i < |s| ==> IsWhitespace(s[i])
  }

  /** Drops leading whitespace: the result is a suffix of `s`, what was
      dropped is all whitespace, and the result does not start with any. */
  function TrimStart(s: string): (r: string)
    ensures |r| <= |s| && r == s[|s| - |r|..]
    ensures AllWhitespace(s[..|s| - |r|])
    ensures r != [] ==> !IsWhitespace(r[0])
  {
    if s != [] && IsWhitespace(s[0]) then
      var r := TrimStart(s[1..]);
      assert s[1..][..|s[1..]| - |r|] == s[1..|s| - |r|];
      r
    else s
  }

  /** Drops trailing whitespace: the result is a prefix of `s`, what was
      dropped is all whitespace, and the result does not end with any. */
  function TrimEnd(s: string): (r: string)
    ensures |r| <= |s| && r == s[..|r|]
    ensures AllWhitespace(s[|r|..])
    ensures r != [] ==> !IsWhitespace(r[|r| - 1])
  {
    if s != [] && IsWhitespace(s[|s| - 1]) then
      var r := TrimEnd(s[..|s| - 1]);
      assert s[|r|..] == s[..|s| - 1][|r|..] + [s[|s| - 1]];
      r
    else s
  }

  /** String.prototype.trim: the result is empty exactly when the input is
      all whitespace, and otherwise neither starts nor ends with any. */
  function Trim(s: string): (r: string)
    ensures r == [] <==> AllWhitespace(s)
    ensures r != [] ==> !IsWhitespace(r[0]) && !IsWhitespace(r[|r| - 1])
  {
    TrimEmptyOnlyWhenBlank(s);
    TrimEnd(TrimStart(s))
  }

  lemma TrimEmptyOnlyWhenBlank(s: string)
    ensures var r := TrimEnd(TrimStart(s));
      && (r == [] <==> AllWhitespace(s))
      && (r != [] ==> !IsWhitespace(r[0]))
  {
    var t := TrimStart(s);
    var r := TrimEnd(t);
    var k := |s| - |t|;
    assert t == s[k..];
    assert AllWhitespace(s[..k]);
    if r == [] {
      assert t[|r|..] == t;
      forall i | 0 <= i < |s| ensures IsWhitespace(s[i]) {
        if i < k {
          assert s[i] == s[..k][i];
        } else {
          assert s[i] == t[i - k];
        }
      }
    } else {
      assert r[0] == t[0] == s[k];
      assert !AllWhitespace(s);
    }
  }

  /** Trim keeps everything between the first and the last
      non-whitespace character. */
  lemma TrimKeepsInner(lead: string, core: string, trail: string)
    requires AllWhitespace(lead) && AllWhitespace(trail)
    requires core != [] && !IsWhitespace(core[0]) && !IsWhitespace(core[|core| - 1])
    ensures Trim(lead + core + trail) == core
  {
    assert lead + core + trail == lead + (core + trail);
    TrimStartSkips(lead, core + trail);
    TrimEndSkips(core, trail);
  }

  lemma {:induction false} TrimStartSkips(lead: string, rest: string)
    requires AllWhitespace(lead)
    requires rest != [] && !IsWhitespace(rest[0])
    ensures TrimStart(lead + rest) == rest
  {
    if lead != [] {
      assert (lead + rest)[0] == lead[0];
      assert (lead + rest)[1..] == lead[1..] + rest;
      TrimStartSkips(lead[1..], rest);
    } else {
      assert lead + rest == rest;
    }
  }

  lemma {:induction false} TrimEndSkips(body: string, trail: string)
    requires AllWhitespace(trail)
    requires body != [] && !IsWhitespace(body[|body| - 1])
    ensures TrimEnd(body + trail) == body
  {
    if trail != [] {
      var s := body + trail;
      assert s[|s| - 1] == trail[|trail| - 1];
      assert s[..|s| - 1] == body + trail[..|trail| - 1];
      TrimEndSkips(body, trail[..|trail| - 1]);
    } else {
      assert body + trail == body;
    }
  }

  // ---------------------------------------------------------------------
  // HTML escaping
  // ---------------------------------------------------------------------

  /** One `replace(/c/g, rep)` pass: every occurrence of `c` becomes `rep`. */
  function ReplaceAll(s: string, c: char, rep: string): string
  {
    if s == [] then [] else (if s[0] == c then rep else [s[0]]) + ReplaceAll(s[1..], c, rep)
  }

  /** `escapeHtml`: five global replacements, ampersand first. */
  function EscapeHtml(s: string): string
  {
    var amp := ReplaceAll(s, '&', "&amp;");
    var lt := ReplaceAll(amp, '<', "&lt;");
    var gt := ReplaceAll(lt, '>', "&gt;");
    var quot := ReplaceAll(gt, '"', "&quot;");
    ReplaceAll(quot, '\'', "&#039;")
  }

  predicate IsMarkupChar(c: char)
  {
    c == '<' || c == '>' || c == '"' || c == '\''
  }

  /** The replacement text for one character when the five passes are
      applied to it alone. */
  function EscapeChar(c: char): string
  {
    match c
    case '&' => "&amp;"
    case '<' => "&lt;"
    case '>' => "&gt;"
    case '"' => "&quot;"
    case '\'' => "&#039;"
    case _ => [c]
  }

  /** Escaping character by character, in one pass. */
  function EscapeEach(s: string): string
  {
    if s == [] then [] else EscapeChar(s[0]) + EscapeEach(s[1..])
  }

  /** True when `t` starts with one of the five entities the escaper writes. */
  predicate StartsWithEntity(t: string)
  {
    || "&amp;" <= t || "&lt;" <= t || "&gt;" <= t || "&quot;" <= t || "&#039;" <= t
  }

  /** The decoder for exactly the five entities the escaper writes. */
  function Unescape(s: string): string
    decreases |s|
  {
    if s == [] then []
    else if "&amp;" <= s then "&" + Unescape(s[5..])
    else if "&lt;" <= s then "<" + Unescape(s[4..])
    else if "&gt;" <= s then ">" + Unescape(s[4..])
    else if "&quot;" <= s then "\"" + Unescape(s[6..])
    else if "&#039;" <= s then "'" + Unescape(s[6..])
    else [s[0]] + Unescape(s[1..])
  }

  lemma {:induction false} ReplaceAllAppend(a: string, b: string, c: char, rep: string)
    ensures ReplaceAll(a + b, c, rep) == ReplaceAll(a, c, rep) + ReplaceAll(b, c, rep)
  {
    if a != [] {
      assert (a + b)[1..] == a[1..] + b;
      ReplaceAllAppend(a[1..], b, c, rep);
    } else {
      assert a + b == b;
    }
  }

  lemma {:induction false} ReplaceAllAbsent(s: string, c: char, rep: string)
    requires c !in s
    ensures ReplaceAll(s, c, rep) == s
  {
    if s != [] {
      ReplaceAllAbsent(s[1..], c, rep);
    }
  }

  /** One replacement pass over text that is either the single character
      `c` or does not contain the replaced character. */
  lemma OnePass(c: char, s: string, d: char, rep: string)
    requires s == [c] || d !in s
    ensures ReplaceAll(s, d, rep) == if s == [c] && c == d then rep else s
  {
    if s == [c] {
      assert s[1..] == [];
    } else {
      ReplaceAllAbsent(s, d, rep);
    }
  }

  /** The five passes over a single character, for replacement texts that
      contain none of the characters the later passes replace. */
  lemma FivePasses(c: char, amp: string, lt: string, gt: string, quot: string, apos: string)
    requires '<' !in amp && '>' !in amp && '"' !in amp && '\'' !in amp
    requires '>' !in lt && '"' !in lt && '\'' !in lt
    requires '"' !in gt && '\'' !in gt
    requires '\'' !in quot
    ensures ReplaceAll(ReplaceAll(ReplaceAll(ReplaceAll(ReplaceAll([c], '&', amp), '<', lt), '>', gt), '"', quot), '\'', apos)
         == if c == '&' then amp else if c == '<' then lt else if c == '>' then gt
            else if c == '"' then quot else if c == '\'' then apos else [c]
  {
    var s0 := ReplaceAll([c], '&', amp);
    OnePass(c, [c], '&', amp);
    var s1 := ReplaceAll(s0, '<', lt);
    OnePass(c, s0, '<', lt);
    var s2 := ReplaceAll(s1, '>', gt);
    OnePass(c, s1, '>', gt);
    var s3 := ReplaceAll(s2, '"', quot);
    OnePass(c, s2, '"', quot);
    OnePass(c, s3, '\'', apos);
  }

  lemma EscapeHtmlOneChar(c: char)
    ensures EscapeHtml([c]) == EscapeChar(c)
  {
    FivePasses(c, "&amp;", "&lt;", "&gt;", "&quot;", "&#039;");
  }

  lemma EscapeHtmlAppend(a: string, b: string)
    ensures EscapeHtml(a + b) == EscapeHtml(a) + EscapeHtml(b)
  {
    var amp1, amp2 := ReplaceAll(a, '&', "&amp;"), ReplaceAll(b, '&', "&amp;");
    ReplaceAllAppend(a, b, '&', "&amp;");
    var lt1, lt2 := ReplaceAll(amp1, '<', "&lt;"), ReplaceAll(amp2, '<', "&lt;");
    ReplaceAllAppend(amp1, amp2, '<', "&lt;");
    var gt1, gt2 := ReplaceAll(lt1, '>', "&gt;"), ReplaceAll(lt2, '>', "&gt;");
    ReplaceAllAppend(lt1, lt2, '>', "&gt;");
    var q1, q2 := ReplaceAll(gt1, '"', "&quot;"), ReplaceAll(gt2, '"', "&quot;");
    ReplaceAllAppend(gt1, gt2, '"', "&quot;");
    ReplaceAllAppend(q1, q2, '\'', "&#039;");
  }

  /** The five sequential passes escape each character independently:
      because `&` is replaced first, no entity written by a later pass is
      escaped again. */
  lemma {:induction false} EscapeHtmlIsPerChar(s: string)
    ensures EscapeHtml(s) == EscapeEach(s)
  {
    if s == [] {
    } else {
      assert s == [s[0]] + s[1..];
      EscapeHtmlAppend([s[0]], s[1..]);
      EscapeHtmlOneChar(s[0]);
      EscapeHtmlIsPerChar(s[1..]);
    }
  }

  lemma {:induction false} EscapeEachAppend(a: string, b: string)
    ensures EscapeEach(a + b) == EscapeEach(a) + EscapeEach(b)
  {
    if a != [] {
      assert (a + b)[1..] == a[1..] + b;
      EscapeEachAppend(a[1..], b);
    } else {
      assert a + b == b;
    }
  }

  /** Escaped text holds no `<`, `>`, `"` or `'`, and every `&` in it
      starts one of the five entities. */
  lemma {:induction false} EscapeHtmlSafe(s: string)
    ensures forall i :: 0 <= i < |EscapeHtml(s)| ==> !IsMarkupChar(EscapeHtml(s)[i])
    ensures forall i :: 0 <= i < |EscapeHtml(s)| && EscapeHtml(s)[i] == '&' ==>
              StartsWithEntity(EscapeHtml(s)[i..])
  {
    EscapeHtmlIsPerChar(s);
    EscapeEachSafe(s);
  }

  lemma {:induction false} EscapeEachSafe(s: string)
    ensures forall i :: 0 <= i < |EscapeEach(s)| ==> !IsMarkupChar(EscapeEach(s)[i])
    ensures forall i :: 0 <= i < |EscapeEach(s)| && EscapeEach(s)[i] == '&' ==>
              StartsWithEntity(EscapeEach(s)[i..])
  {
    if s != [] {
      EscapeEachSafe(s[1..]);
      var head, tail := EscapeChar(s[0]), EscapeEach(s[1..]);
      var r := head + tail;
      assert EscapeEach(s) == r;
      forall i | 0 <= i < |r|
        ensures !IsMarkupChar(r[i])
        ensures r[i] == '&' ==> StartsWithEntity(r[i..])
      {
        if i < |head| {
          assert r[i] == head[i];
          if r[i] == '&' {
            assert i == 0;
            assert head <= r[i..];
          }
        } else {
          assert r[i] == tail[i - |head|];
          assert r[i..] == tail[i - |head|..];
        }
      }
    }
  }

  /** Decoding the escaped text gives back the input. */
  lemma {:induction false} UnescapeEscapeHtml(s: string)
    ensures Unescape(EscapeHtml(s)) == s
  {
    EscapeHtmlIsPerChar(s);
    UnescapeEscapeEach(s);
  }

  lemma {:induction false} UnescapeEscapeEach(s: string)
    ensures Unescape(EscapeEach(s)) == s
  {
    if s != [] {
      var c, tail := s[0], EscapeEach(s[1..]);
      var t := EscapeChar(c) + tail;
      assert EscapeEach(s) == t;
      UnescapeEscapeEach(s[1..]);
      if c == '&' {
        assert "&amp;" <= t && t[5..] == tail;
      } else if c == '<' {
        assert !("&amp;" <= t) by { assert t[1] == 'l'; }
        assert "&lt;" <= t && t[4..] == tail;
      } else if c == '>' {
        assert !("&amp;" <= t) by { assert t[1] == 'g'; }
        assert !("&lt;" <= t) by { assert t[1] == 'g'; }
        assert "&gt;" <= t && t[4..] == tail;
      } else if c == '"' {
        assert !("&amp;" <= t) by { assert t[1] == 'q'; }
        assert !("&lt;" <= t) by { assert t[1] == 'q'; }
        assert !("&gt;" <= t) by { assert t[1] == 'q'; }
        assert "&quot;" <= t && t[6..] == tail;
      } else if c == '\'' {
        assert !("&amp;" <= t) by { assert t[1] == '#'; }
        assert !("&lt;" <= t) by { assert t[1] == '#'; }
        assert !("&gt;" <= t) by { assert t[1] == '#'; }
        assert !("&quot;" <= t) by { assert t[1] == '#'; }
        assert "&#039;" <= t && t[6..] == tail;
      } else {
        assert t[0] == c && t[1..] == tail;
        assert !StartsWithEntity(t) by { assert t[0] != '&'; }
      }
      assert s == [c] + s[1..];
    }
  }

  // ---------------------------------------------------------------------
  // Default sort order of strings
  // ---------------------------------------------------------------------

  /** `a` sorts strictly before `b`: the first differing character decides,
      and a proper prefix sorts first. */
  predicate Below(a: string, b: string)
  {
    if a == [] then b != []
    else if b == [] then false
    else if a[0] != b[0] then a[0] < b[0]
    else Below(a[1..], b[1..])
  }

  lemma {:induction false} BelowIrreflexive(a: string)
    ensures !Below(a, a)
  {
    if a != [] { BelowIrreflexive(a[1..]); }
  }

  lemma {:induction false} BelowTransitive(a: string, b: string, c: string)
    requires Below(a, b) && Below(b, c)
    ensures Below(a, c)
  {
    if a != [] && b != [] && c != [] && a[0] == b[0] && b[0] == c[0] {
      BelowTransitive(a[1..], b[1..], c[1..]);
    }
  }

  lemma {:induction false} BelowTotal(a: string, b: string)
    requires a != b
    ensures Below(a, b) || Below(b, a)
  {
    if a != [] && b != [] && a[0] == b[0] {
      assert a == [a[0]] + a[1..] && b == [b[0]] + b[1..];
      BelowTotal(a[1..], b[1..]);
    }
  }

  predicate StrictlyAscending(s: seq<string>)
  {
    forall i, j :: 0 <= i < j < |s| ==> Below(s[i], s[j])
  }

  predicate Distinct<T(==)>(s: seq<T>)
  {
    forall i, j :: 0 <= i < j < |s| ==> s[i] != s[j]
  }

  /** Places `x` in front of the first element it sorts below. */
  function InsertLabel(x: string, s: seq<string>): (r: seq<string>)
    ensures multiset(r) == multiset(s) + multiset{x}
    ensures StrictlyAscending(s) && x !in s ==> StrictlyAscending(r)
  {
    if s == [] then [x]
    else if Below(x, s[0]) then
      InsertFrontAscending(x, s);
      [x] + s
    else
      var rest := InsertLabel(x, s[1..]);
      assert s == [s[0]] + s[1..];
      InsertLaterAscending(x, s, rest);
      [s[0]] + rest
  }

  lemma InsertFrontAscending(x: string, s: seq<string>)
    requires s != [] && Below(x, s[0])
    ensures StrictlyAscending(s) ==> StrictlyAscending([x] + s)
  {
    if StrictlyAscending(s) {
      var r := [x] + s;
      forall j | 0 < j < |r| ensures Below(x, r[j]) {
        if j > 1 { BelowTransitive(x, s[0], s[j - 1]); }
      }
    }
  }

  lemma InsertLaterAscending(x: string, s: seq<string>, rest: seq<string>)
    requires s != [] && !Below(x, s[0])
    requires multiset(rest) == multiset(s[1..]) + multiset{x}
    requires StrictlyAscending(s[1..]) && x !in s[1..] ==> StrictlyAscending(rest)
    ensures StrictlyAscending(s) && x !in s ==> StrictlyAscending([s[0]] + rest)
  {
    if StrictlyAscending(s) && x !in s {
      var r := [s[0]] + rest;
      BelowTotal(x, s[0]);
      forall j | 0 < j < |r| ensures Below(s[0], r[j]) {
        assert r[j] in multiset(rest);
        assert r[j] == x || r[j] in multiset(s[1..]);
      }
    }
  }

  /** `Array.from(keys).sort()`: the same keys, in ascending order. */
  function SortLabels(keys: seq<string>): (r: seq<string>)
    ensures multiset(r) == multiset(keys)
    ensures Distinct(keys) ==> StrictlyAscending(r)
  {
    if keys == [] then []
    else
      var rest := SortLabels(keys[1..]);
      assert keys == [keys[0]] + keys[1..];
      assert Distinct(keys) ==> keys[0] !in multiset(keys[1..]);
      InsertLabel(keys[0], rest)
  }

  lemma StrictlyAscendingDistinct(s: seq<string>)
    requires StrictlyAscending(s)
    ensures Distinct(s)
  {
    forall i, j | 0 <= i < j < |s| ensures s[i] != s[j] {
      if s[i] == s[j] { BelowIrreflexive(s[i]); }
    }
  }
}
