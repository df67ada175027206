/** The relevance gate of the story transformer: a local keyword check that
    turns away clearly off-topic text (parliament, government, elections,
    stock market) before any call to the generative model. */
module Relevance {
  import opened Text

  /** The fixed off-topic vocabulary, all in lower case. */
  const IrrelevantKeywords: seq<string> := [
    "βουλή", "βουλής", "κυβέρνηση", "υπουργός", "πρωθυπουργός",
    "εξεταστική", "επιτροπή", "σκάνδαλο", "οπεκεπε",
    "εκλογές", "κόμμα", "ψήφισμα", "νομοσχέδιο",
    "χρηματιστήριο", "μετοχές", "nasdaq", "κατάθεση"
  ]

  /** Text is turned away once this many keywords of the list occur in it. */
  const RejectThreshold: nat := 3

  /** No keyword is listed twice. */
  ghost predicate Distinct(words: seq<string>) {
    forall i, j :: 0 <= i < j < |words| ==> words[i] != words[j]
  }

  /** The sum over the keyword list of 1 for each keyword found in `text`. */
  function CountMatches(words: seq<string>, text: string): (n: nat)
    ensures n <= |words|
  {
    if words == [] then 0
    else (if Contains(text, words[0]) then 1 else 0) + CountMatches(words[1..], text)
  }

  /** The set of listed keywords that occur in `text`. */
  ghost function Matched(words: seq<string>, text: string): set<string> {
    set w | w in words && Contains(text, w)
  }

  /** Over a list without repetitions, the sum counts each matched keyword
      once: it is the number of distinct keywords that occur. */
  lemma {:induction false} CountIsDistinctMatches(words: seq<string>, text: string)
    requires Distinct(words)
    ensures CountMatches(words, text) == |Matched(words, text)|
  {
    if words != [] {
      var rest := words[1..];
      CountIsDistinctMatches(rest, text);
      assert forall j :: 0 <= j < |rest| ==> rest[j] == words[j + 1];
      assert words[0] !in rest;
      var head := if Contains(text, words[0]) then {words[0]} else {};
      assert Matched(words, text) == head + Matched(rest, text) by {
        assert forall w :: w in words <==> w == words[0] || w in rest;
      }
    }
  }

  lemma KeywordsDistinct()
    ensures Distinct(IrrelevantKeywords)
  {
  }

  /** `is_relevant_content`: the text is turned away exactly when at least
      three distinct off-topic keywords occur in its lower-cased form. */
  function IsRelevantContent(text: string): (r: bool)
    ensures !r <==> |Matched(IrrelevantKeywords, Lower(text))| >= RejectThreshold
  {
    KeywordsDistinct();
    CountIsDistinctMatches(IrrelevantKeywords, Lower(text));
    CountMatches(IrrelevantKeywords, Lower(text)) < RejectThreshold
  }

  /** "βουλής" contains "βουλή", so the one word counts as two keywords. */
  lemma GenitiveCountsTwice(text: string)
    requires Contains(Lower(text), "βουλής")
    ensures {"βουλή", "βουλής"} <= Matched(IrrelevantKeywords, Lower(text))
  {
    PrefixContained(Lower(text), "βουλής", "βουλή");
  }

  /** Hence "βουλής" and one more unrelated keyword already turn the text away. */
  lemma GenitivePlusOneRejected(text: string, other: string)
    requires Contains(Lower(text), "βουλής")
    requires other in IrrelevantKeywords && other != "βουλή" && other != "βουλής"
    requires Contains(Lower(text), other)
    ensures !IsRelevantContent(text)
  {
    GenitiveCountsTwice(text);
    var three := {"βουλή", "βουλής", other};
    assert three <= Matched(IrrelevantKeywords, Lower(text));
    assert |three| == 3;
    SubsetCard(three, Matched(IrrelevantKeywords, Lower(text)));
  }

  /** Text in which no keyword of the list occurs always passes. */
  lemma NoKeywordPasses(text: string)
    requires forall w :: w in IrrelevantKeywords ==> !Contains(Lower(text), w)
    ensures IsRelevantContent(text)
  {
    assert Matched(IrrelevantKeywords, Lower(text)) == {};
  }

  lemma SubsetCard<T>(a: set<T>, b: set<T>)
    requires a <= b
    ensures |a| <= |b|
  {
    assert b == a + (b - a);
  }
}
