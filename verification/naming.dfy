/** Name normalisation: turns a contract or argument name into a Python
    identifier by replacing every non-letter and escaping reserved words.
    The reserved-word list of the target language is a parameter. */
module Naming {
  import opened Text

  predicate IsAsciiLetter(c: char)
  {
    'a' <= c <= 'z' || 'A' <= c <= 'Z'
  }

  /** A character a normalised name may contain. */
  predicate IsNameChar(c: char)
  {
    IsAsciiLetter(c) || c == '_'
  }

  predicate IsNameText(s: string)
  {
    forall i :: 0 <= i < |s| ==> IsNameChar(s[i])
  }

  /** The first step of normalisation: every non-letter becomes `_`. */
  function ReplaceNonLetters(s: string): (r: string)
    ensures |r| == |s| && IsNameText(r)
    ensures forall i :: 0 <= i < |s| ==> (IsAsciiLetter(s[i]) ==> r[i] == s[i])
    ensures forall i :: 0 <= i < |s| ==> (!IsAsciiLetter(s[i]) ==> r[i] == '_')
  {
    seq(|s|, i requires 0 <= i < |s| => if IsAsciiLetter(s[i]) then s[i] else '_')
  }

  /** `_normalize_name`: letters stay where they are, every other character
      becomes `_`, and a `_` is appended when the result is a reserved word. */
  function NormalizeName(s: string, keywords: set<string>): (r: string)
    ensures |r| == |s| + (if ReplaceNonLetters(s) in keywords then 1 else 0)
    ensures forall i :: 0 <= i < |s| && IsAsciiLetter(s[i]) ==> r[i] == s[i]
    ensures forall i :: 0 <= i < |s| && !IsAsciiLetter(s[i]) ==> r[i] == '_'
    ensures |r| > |s| ==> r[|s|] == '_'
    ensures IsNameText(r)
  {
    var replaced := ReplaceNonLetters(s);
    if replaced in keywords then replaced + "_" else replaced
  }

  /** Text made of letters and underscores only is left alone by the replacement step. */
  lemma ReplaceKeepsNameText(s: string)
    requires IsNameText(s)
    ensures ReplaceNonLetters(s) == s
  {
  }

  /** A name that already is a non-reserved run of letters is its own normal form. */
  lemma {:induction false} NormalizeKeepsPlainNames(s: string, keywords: set<string>)
    requires forall i :: 0 <= i < |s| ==> IsAsciiLetter(s[i])
    requires s !in keywords
    ensures NormalizeName(s, keywords) == s
  {
    ReplaceKeepsNameText(s);
  }

  /** As long as no reserved word ends in `_` (true of Python's keyword list),
      a normalised name is never a reserved word. */
  lemma {:induction false} NormalizeAvoidsKeywords(s: string, keywords: set<string>)
    requires forall k :: k in keywords ==> !EndsWith(k, "_")
    ensures NormalizeName(s, keywords) !in keywords
  {
    var replaced := ReplaceNonLetters(s);
    if replaced in keywords {
      var r := replaced + "_";
      assert r[|r| - 1..] == "_";
      assert EndsWith(r, "_");
    }
  }

  /** Under the same condition, normalising twice is normalising once, so a
      class name that was normalised already passes through unchanged. */
  lemma {:induction false} NormalizeIdempotent(s: string, keywords: set<string>)
    requires forall k :: k in keywords ==> !EndsWith(k, "_")
    ensures NormalizeName(NormalizeName(s, keywords), keywords) == NormalizeName(s, keywords)
  {
    var r := NormalizeName(s, keywords);
    ReplaceKeepsNameText(r);
    NormalizeAvoidsKeywords(s, keywords);
  }

  /** Distinct names can normalise to the same identifier: `a1` and `a2` both become `a_`. */
  lemma DistinctNamesCollide(keywords: set<string>)
    ensures NormalizeName("a1", keywords) == NormalizeName("a2", keywords)
  {
    assert ReplaceNonLetters("a1") == "a_" == ReplaceNonLetters("a2");
  }

  /** A contract called `My Token!` gets the class name `My_Token_`. */
  lemma ContractNameExample(keywords: set<string>)
    requires "My_Token_" !in keywords
    ensures NormalizeName("My Token!", keywords) == "My_Token_"
  {
    assert ReplaceNonLetters("My Token!") == "My_Token_";
  }
}
