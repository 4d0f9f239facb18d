/**
 * The shared helpers of the catalogue: the two list tokenizers used for query filters and
 * analysis dimensions, and the timestamp used to order metrics.
 */
module Utils {
  import opened Wrappers
  import opened Strings
  import opened Types

  /** The characters `normalizeFilters` splits on. */
  const FilterSeparators: set<char> := {',', '\n'}

  /** The characters `normalizeDimensions` splits on. */
  const DimensionSeparators: set<char> := {','}

  /** A token as `.map((v) => v.trim()).filter(Boolean)` keeps it: non-empty and its own `trim`. */
  predicate IsToken(t: string) {
    t != "" && Trim(t) == t
  }

  /** A token that also holds none of the separators it was split on. */
  predicate CleanToken(t: string, seps: set<char>) {
    IsToken(t) && FreeOf(t, seps)
  }

  predicate CleanTokens(ts: seq<string>, seps: set<char>) {
    forall i | 0 <= i < |ts| :: CleanToken(ts[i], seps)
  }

  /** `.map((v) => v.trim()).filter(Boolean)`. */
  function Tokens(pieces: seq<string>): (r: seq<string>)
    ensures forall i | 0 <= i < |r| :: IsToken(r[i])
    decreases |pieces|
  {
    if |pieces| == 0 then []
    else
      var t := Trim(pieces[0]);
      TrimIdempotent(pieces[0]);
      var rest := Tokens(pieces[1..]);
      if t == "" then rest else [t] + rest
  }

  /** Tokenizing distributes over concatenation of the pieces. */
  lemma {:induction false} TokensAppend(a: seq<string>, b: seq<string>)
    ensures Tokens(a + b) == Tokens(a) + Tokens(b)
    decreases |a|
  {
    if |a| == 0 {
      assert a + b == b;
    } else {
      assert (a + b)[0] == a[0] && (a + b)[1..] == a[1..] + b;
      TokensAppend(a[1..], b);
    }
  }

  /** Every token is a trimmed piece of the input, so it holds no separator. */
  lemma {:induction false} TokensFree(pieces: seq<string>, seps: set<char>)
    requires forall i | 0 <= i < |pieces| :: FreeOf(pieces[i], seps)
    ensures CleanTokens(Tokens(pieces), seps)
    decreases |pieces|
  {
    if |pieces| > 0 {
      var t := Trim(pieces[0]);
      TrimProperties(pieces[0]);
      assert FreeOf(t, seps) by {
        forall i | 0 <= i < |t| ensures t[i] !in seps {
          assert t[i] in t;
        }
      }
      TokensFree(pieces[1..], seps);
    }
  }

  /** Clean tokens pass through tokenizing unchanged. */
  lemma {:induction false} TokensOfClean(ts: seq<string>, seps: set<char>)
    requires CleanTokens(ts, seps)
    ensures Tokens(ts) == ts
    decreases |ts|
  {
    if |ts| > 0 {
      TokensOfClean(ts[1..], seps);
      assert ts == [ts[0]] + ts[1..];
    }
  }

  /** `value.split(/\n|,/).map((v) => v.trim()).filter(Boolean)`. */
  function NormalizeFilters(value: string): (r: seq<string>)
    ensures CleanTokens(r, FilterSeparators)
  {
    SplitPiecesFree(value, FilterSeparators);
    TokensFree(Split(value, FilterSeparators), FilterSeparators);
    Tokens(Split(value, FilterSeparators))
  }

  /** `value.split(/,/).map((v) => v.trim()).filter(Boolean)`. */
  function NormalizeDimensions(value: string): (r: seq<string>)
    ensures CleanTokens(r, DimensionSeparators)
  {
    SplitPiecesFree(value, DimensionSeparators);
    TokensFree(Split(value, DimensionSeparators), DimensionSeparators);
    Tokens(Split(value, DimensionSeparators))
  }

  /** Tokenizing text around a separator tokenizes the two sides independently, in order. */
  lemma TokenizeAppend(a: string, c: char, b: string, seps: set<char>)
    requires c in seps
    ensures Tokens(Split(a + [c] + b, seps)) == Tokens(Split(a, seps)) + Tokens(Split(b, seps))
  {
    SplitAppend(a, c, b, seps);
    TokensAppend(Split(a, seps), Split(b, seps));
  }

  /** A clean token tokenizes to itself alone: nothing is dropped, merged or reordered. */
  lemma TokenizeClean(t: string, seps: set<char>)
    requires CleanToken(t, seps)
    ensures Tokens(Split(t, seps)) == [t]
  {
    SplitOfFree(t, seps);
  }

  /** Whitespace without separators in front of the text does not change the tokens. */
  lemma {:induction false} TokenizeSkipsBlankPrefix(w: string, x: string, seps: set<char>)
    requires AllSpace(w) && FreeOf(w, seps)
    ensures Tokens(Split(w + x, seps)) == Tokens(Split(x, seps))
    decreases |w|
  {
    if |w| > 0 {
      var y := w[1..] + x;
      TokenizeSkipsBlankPrefix(w[1..], x, seps);
      assert w + x == [w[0]] + y;
      assert ([w[0]] + y)[1..] == y;
      var sy := Split(y, seps);
      var l := [[w[0]] + sy[0]] + sy[1..];
      assert Split([w[0]] + y, seps) == l;
      TrimSkipsLeadingSpace(w[0], sy[0]);
      assert l[0] == [w[0]] + sy[0] && l[1..] == sy[1..];
      var t := Trim(sy[0]);
      assert Tokens(l) == (if t == "" then Tokens(sy[1..]) else [t] + Tokens(sy[1..]));
      assert Tokens(sy) == (if t == "" then Tokens(sy[1..]) else [t] + Tokens(sy[1..]));
    } else {
      assert w + x == x;
    }
  }

  /** Text without any non-blank character gives no tokens. */
  lemma {:induction false} TokenizeBlank(s: string, seps: set<char>)
    requires AllSpace(s)
    ensures Tokens(Split(s, seps)) == []
    decreases |s|
  {
    if |s| > 0 {
      TokenizeBlank(s[1..], seps);
      var rest := Split(s[1..], seps);
      TrimEmptyIffBlank(rest[0]);
      TrimEmptyIffBlank([s[0]] + rest[0]);
      assert rest == [rest[0]] + rest[1..];
      if s[0] !in seps {
        assert Tokens(Split(s, seps)) == Tokens([[s[0]] + rest[0]]) + Tokens(rest[1..]) by {
          TokensAppend([[s[0]] + rest[0]], rest[1..]);
        }
        assert Tokens(rest) == Tokens([rest[0]]) + Tokens(rest[1..]) by {
          TokensAppend([rest[0]], rest[1..]);
        }
      }
    }
  }

  /** A clean token, a separator and whitespace in front of more text: the token, then the text's tokens. */
  lemma TokenizeLeadingToken(t: string, c: char, w: string, rest: string, seps: set<char>)
    requires c in seps && AllSpace(w) && FreeOf(w, seps)
    requires CleanToken(t, seps)
    ensures Tokens(Split(t + [c] + (w + rest), seps)) == [t] + Tokens(Split(rest, seps))
  {
    TokenizeAppend(t, c, w + rest, seps);
    TokenizeClean(t, seps);
    TokenizeSkipsBlankPrefix(w, rest, seps);
  }

  /**
   * Joining clean tokens with a separator character followed by separator-free whitespace
   * (`","`, `", "`, `",\t"`) and tokenizing again gives back the tokens.
   */
  lemma {:induction false} TokenizeJoin(ts: seq<string>, c: char, w: string, seps: set<char>)
    requires c in seps && AllSpace(w) && FreeOf(w, seps)
    requires CleanTokens(ts, seps)
    ensures Tokens(Split(Join(ts, [c] + w), seps)) == ts
    decreases |ts|
  {
    if |ts| == 0 {
      TokenizeBlank("", seps);
    } else if |ts| == 1 {
      TokenizeClean(ts[0], seps);
    } else {
      var rest := Join(ts[1..], [c] + w);
      assert Join(ts, [c] + w) == ts[0] + [c] + (w + rest);
      TokenizeLeadingToken(ts[0], c, w, rest, seps);
      TokenizeJoin(ts[1..], c, w, seps);
      assert ts == [ts[0]] + ts[1..];
    }
  }

  /** Joining `normalizeFilters` output with `","` and normalizing again changes nothing. */
  lemma NormalizeFiltersIdempotent(s: string)
    ensures NormalizeFilters(Join(NormalizeFilters(s), ",")) == NormalizeFilters(s)
  {
    TokenizeJoin(NormalizeFilters(s), ',', "", FilterSeparators);
    assert [','] + "" == ",";
  }

  /** Filters joined with `", "` (the edit form's prefill) normalize back to the same list. */
  lemma NormalizeFiltersOfPrefill(ts: seq<string>)
    requires CleanTokens(ts, FilterSeparators)
    ensures NormalizeFilters(Join(ts, ", ")) == ts
  {
    TokenizeJoin(ts, ',', " ", FilterSeparators);
    assert [','] + " " == ", ";
  }

  /** Dimensions joined with `", "` normalize back to the same list. */
  lemma NormalizeDimensionsOfPrefill(ts: seq<string>)
    requires CleanTokens(ts, DimensionSeparators)
    ensures NormalizeDimensions(Join(ts, ", ")) == ts
  {
    TokenizeJoin(ts, ',', " ", DimensionSeparators);
    assert [','] + " " == ", ";
  }

  /** `normalizeFilters` keeps input order and duplicates: each separator-delimited part contributes its token. */
  lemma NormalizeFiltersAppend(a: string, c: char, b: string)
    requires c == ',' || c == '\n'
    ensures NormalizeFilters(a + [c] + b) == NormalizeFilters(a) + NormalizeFilters(b)
  {
    TokenizeAppend(a, c, b, FilterSeparators);
  }

  /** `normalizeDimensions` splits only on commas. */
  lemma NormalizeDimensionsAppend(a: string, b: string)
    ensures NormalizeDimensions(a + "," + b) == NormalizeDimensions(a) + NormalizeDimensions(b)
  {
    TokenizeAppend(a, ',', b, DimensionSeparators);
  }

  /** Blank input yields no tokens from either tokenizer. */
  lemma NormalizeBlank(s: string)
    requires AllSpace(s)
    ensures NormalizeFilters(s) == [] && NormalizeDimensions(s) == []
  {
    TokenizeBlank(s, FilterSeparators);
    TokenizeBlank(s, DimensionSeparators);
  }

  /** An interior newline stays inside a dimension token. */
  lemma NewlineStaysInDimension()
    ensures NormalizeDimensions("a\nb") == ["a\nb"]
  {
    TokenizeClean("a\nb", DimensionSeparators);
  }

  /** Filters split at an interior newline. */
  lemma NewlineSplitsFilters()
    ensures NormalizeFilters("a\nb") == ["a", "b"]
  {
    NormalizeFiltersAppend("a", '\n', "b");
    TokenizeClean("a", FilterSeparators);
    TokenizeClean("b", FilterSeparators);
    assert "a" + ['\n'] + "b" == "a\nb";
  }

  /** `s.trim() || undefined`: the trimmed text, or absent when it is blank. */
  function NonBlank(s: string): (r: Option<string>)
    ensures r.None? <==> AllSpace(s)
    ensures r.Some? ==> r.value == Trim(s) && r.value != "" && Trim(r.value) == r.value
  {
    TrimEmptyIffBlank(s);
    TrimIdempotent(s);
    if Trim(s) == "" then None else Some(Trim(s))
  }

  /** `o?.trim() || undefined`. */
  function NonBlankOpt(o: Option<string>): (r: Option<string>)
    ensures r.Some? <==> o.Some? && !AllSpace(o.value)
    ensures r.Some? ==> r.value == Trim(o.value)
  {
    match o
    case None => None
    case Some(s) => NonBlank(s)
  }

  /** Which timestamp field of a metric to read. */
  datatype TimestampKey = CreatedAt | UpdatedAt

  /**
   * `getMetricTimestamp`: the parsed timestamp, or 0 when the field is absent, empty or does not
   * parse. `parse` stands for `Date.parse`, with `None` for `NaN`.
   */
  function MetricTimestamp(m: Metric, key: TimestampKey, parse: string -> Option<int>): (r: int)
    ensures var v := if key == CreatedAt then m.createdAt else m.updatedAt;
            v.None? || v.value == "" ==> r == 0
    ensures var v := if key == CreatedAt then m.createdAt else m.updatedAt;
            v.Some? && v.value != "" && parse(v.value).None? ==> r == 0
    ensures var v := if key == CreatedAt then m.createdAt else m.updatedAt;
            v.Some? && v.value != "" && parse(v.value).Some? ==> r == parse(v.value).value
  {
    var value := if key == CreatedAt then m.createdAt else m.updatedAt;
    match value
    case None => 0
    case Some(v) =>
      if v == "" then 0
      else match parse(v)
        case None => 0
        case Some(t) => t
  }
}
