/**
 * Blob-name classification. The builders test names with `std::regex_search`
 * against `<prefix>([0-9]+)`: the pattern may occur anywhere in the name, the
 * leftmost occurrence wins and the captured group is the maximal run of
 * digits that follows the prefix there.
 */
module TensorNames {
  import opened Wrappers

  const EncoderOutputPrefix := "encoder_output_"
  const InitialStatePrefix := "initial_state_"
  const StateOutputPrefix := "state_output_"
  const FixedInputPrefix := "fixed_input_"
  const StateInputPrefix := "state_input_"
  const PossibleTranslationTokens := "possible_translation_tokens"

  predicate IsDigit(c: char)
  {
    '0' <= c <= '9'
  }

  predicate AllDigits(s: string)
  {
    forall i | 0 <= i < |s| :: IsDigit(s[i])
  }

  /** The longest prefix of `s` made of decimal digits. */
  function DigitRun(s: string): string
  {
    if s != [] && IsDigit(s[0]) then [s[0]] + DigitRun(s[1..]) else []
  }

  /** The digit run is a prefix, all digits, and stops at the first non-digit. */
  lemma {:induction false} DigitRunSpec(s: string)
    ensures DigitRun(s) <= s && AllDigits(DigitRun(s))
    ensures |DigitRun(s)| < |s| ==> !IsDigit(s[|DigitRun(s)|])
  {
    if s != [] && IsDigit(s[0]) {
      DigitRunSpec(s[1..]);
    }
  }

  /** `<prefix>[0-9]` occurs in `s` at position `p`. */
  predicate MatchesAt(s: string, prefix: string, p: nat)
  {
    && p + |prefix| < |s|
    && HasAt(s, prefix, p)
    && IsDigit(s[p + |prefix|])
  }

  /** `prefix` occurs in `s` at position `p`, compared character by character. */
  predicate HasAt(s: string, prefix: string, p: nat)
    decreases |prefix|
  {
    prefix == [] || (p < |s| && s[p] == prefix[0] && HasAt(s, prefix[1..], p + 1))
  }

  lemma {:induction false} HasAtIndexed(s: string, prefix: string, p: nat)
    requires p + |prefix| <= |s|
    ensures HasAt(s, prefix, p) <==> forall j | 0 <= j < |prefix| :: s[p + j] == prefix[j]
    decreases |prefix|
  {
    if prefix != [] {
      HasAtIndexed(s, prefix[1..], p + 1);
      if forall j | 0 <= j < |prefix| :: s[p + j] == prefix[j] {
        assert s[p + 0] == prefix[0];
        forall j | 0 <= j < |prefix| - 1 ensures s[p + 1 + j] == prefix[1..][j] {
          assert s[p + (j + 1)] == prefix[j + 1];
        }
      }
      if HasAt(s, prefix, p) {
        forall j | 0 <= j < |prefix| ensures s[p + j] == prefix[j] {
          if j > 0 {
            assert s[p + 1 + (j - 1)] == prefix[1..][j - 1];
          }
        }
      }
    }
  }

  /** `q` is the leftmost match position at or after `p`. */
  predicate FirstMatchFrom(s: string, prefix: string, p: nat, q: nat)
  {
    p <= q && MatchesAt(s, prefix, q) && forall q' | p <= q' < q :: !MatchesAt(s, prefix, q')
  }

  /** `regex_search` started at position `p`: the digits captured by the leftmost match. */
  function SearchFrom(s: string, prefix: string, p: nat): Option<string>
    decreases |s| - p
  {
    if |s| <= p then None
    else if MatchesAt(s, prefix, p) then Some(DigitRun(s[p + |prefix|..]))
    else SearchFrom(s, prefix, p + 1)
  }

  /**
   * A search from `p` succeeds exactly when `<prefix>` and a digit occur at
   * or after `p`, and then captures the digit run at the leftmost such place.
   */
  lemma {:induction false} SearchFromSpec(s: string, prefix: string, p: nat)
    ensures SearchFrom(s, prefix, p).Some? <==> exists q: nat :: p <= q && MatchesAt(s, prefix, q)
    ensures SearchFrom(s, prefix, p).Some? ==>
      exists q: nat :: FirstMatchFrom(s, prefix, p, q) && SearchFrom(s, prefix, p).value == DigitRun(s[q + |prefix|..])
    decreases |s| - p
  {
    if |s| <= p {
    } else if MatchesAt(s, prefix, p) {
      assert FirstMatchFrom(s, prefix, p, p);
    } else {
      SearchFromSpec(s, prefix, p + 1);
      var r := SearchFrom(s, prefix, p + 1);
      if r.Some? {
        var q: nat :| FirstMatchFrom(s, prefix, p + 1, q) && r.value == DigitRun(s[q + |prefix|..]);
        assert FirstMatchFrom(s, prefix, p, q);
      }
    }
  }

  /** `regex_search(s, m, regex(prefix + "([0-9]+)"))`, yielding `m.str(1)`. */
  function Search(s: string, prefix: string): Option<string>
  {
    SearchFrom(s, prefix, 0)
  }

  /** A captured group is a non-empty run of digits. */
  lemma SearchCapturesDigits(s: string, prefix: string)
    requires Search(s, prefix).Some?
    ensures Search(s, prefix).value != [] && AllDigits(Search(s, prefix).value)
  {
    SearchFromSpec(s, prefix, 0);
    var q: nat :| FirstMatchFrom(s, prefix, 0, q) && Search(s, prefix).value == DigitRun(s[q + |prefix|..]);
    var rest := s[q + |prefix|..];
    assert rest[0] == s[q + |prefix|];
    DigitRunSpec(rest);
  }

  lemma {:induction false} DigitRunOfDigits(d: string)
    requires AllDigits(d)
    ensures DigitRun(d) == d
  {
    if d != [] {
      DigitRunOfDigits(d[1..]);
    }
  }

  /** A well-formed name `<prefix><digits>` is matched and yields exactly its digits. */
  lemma SearchWellFormed(prefix: string, d: string)
    requires d != [] && AllDigits(d)
    ensures Search(prefix + d, prefix) == Some(d)
  {
    var s := prefix + d;
    HasAtIndexed(s, prefix, 0);
    assert MatchesAt(s, prefix, 0);
    assert FirstMatchFrom(s, prefix, 0, 0);
    assert s[|prefix|..] == d;
    DigitRunOfDigits(d);
  }

  /**
   * `<prefix>` cannot occur in `w + d` when `d` is all digits, the prefix
   * ends in a non-digit and is longer than `w`.
   */
  lemma SearchMissesShortStem(w: string, d: string, prefix: string)
    requires AllDigits(d)
    requires prefix != [] && !IsDigit(prefix[|prefix| - 1])
    requires |w| < |prefix|
    ensures Search(w + d, prefix) == None
  {
    var s := w + d;
    SearchFromSpec(s, prefix, 0);
    forall q: nat ensures !MatchesAt(s, prefix, q) {
      var i := q + (|prefix| - 1);
      if i < |s| {
        HasAtIndexed(s, prefix, q);
        assert s[i] == d[i - |w|];
      }
    }
  }

  /** A name without digits matches no `<prefix>([0-9]+)` pattern. */
  lemma SearchNeedsDigit(s: string, prefix: string)
    requires forall i | 0 <= i < |s| :: !IsDigit(s[i])
    ensures Search(s, prefix) == None
  {
    SearchFromSpec(s, prefix, 0);
  }
}
