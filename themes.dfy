/** Theme classification of a story (`get_emoji_theme`): five keyword lists
    checked in a fixed priority order, the first list with a keyword in the
    lower-cased text picking the decorative theme, "hope" otherwise. */
module Themes {
  import opened Text

  datatype Theme = Strength | Love | Community | Medical | Success | Hope

  /** The constant metadata record the display uses for a theme. */
  datatype ThemeData = ThemeData(theme: Theme, emojis: seq<string>, color: string, animation: string)

  /** The name stored in the `emoji_theme` column. */
  function ThemeName(t: Theme): string {
    match t
    case Strength => "strength"
    case Love => "love"
    case Community => "community"
    case Medical => "medical"
    case Success => "success"
    case Hope => "hope"
  }

  /** The metadata record of each theme, as returned by `get_emoji_theme`. */
  function Metadata(t: Theme): (d: ThemeData)
    ensures d.theme == t && |d.emojis| == 5
  {
    match t
    case Strength => ThemeData(Strength, ["💪", "🔥", "⚡", "🏋️‍♀️", "💎"], "orange", "bounce")
    case Love => ThemeData(Love, ["💝", "💕", "🌈", "🦋", "💖"], "pink", "float")
    case Community => ThemeData(Community, ["🤝", "👥", "🌟", "💜", "🎯"], "blue", "pulse")
    case Medical => ThemeData(Medical, ["🏥", "⚕️", "💊", "🩺", "🌱"], "green", "glow")
    case Success => ThemeData(Success, ["🎉", "🏆", "✨", "🌟", "🎯"], "gold", "sparkle")
    case Hope => ThemeData(Hope, ["🌟", "💜", "✨", "🌈", "🦋"], "purple", "float")
  }

  const StrengthWords: seq<string> := ["δυνατή", "δυνατός", "αντοχή", "δύναμη", "παλεύω", "δεν τα παρατάω"]
  const LoveWords: seq<string> := ["αγάπη", "οικογένεια", "υποστήριξη", "μαμά", "μπαμπάς", "παιδιά"]
  const CommunityWords: seq<string> := ["μαζί", "κοινότητα", "φίλοι", "υποστήριξη", "αλληλεγγύη"]
  const MedicalWords: seq<string> := ["γιατρός", "θεραπεία", "φάρμακο", "νοσοκομείο", "υγεία"]
  const SuccessWords: seq<string> := ["επιτυχία", "κέρδισα", "κατάφερα", "νίκη", "πρόοδος"]

  /** The keyword list of a theme; hope, the default, has none. */
  function Words(t: Theme): seq<string> {
    match t
    case Strength => StrengthWords
    case Love => LoveWords
    case Community => CommunityWords
    case Medical => MedicalWords
    case Success => SuccessWords
    case Hope => []
  }

  /** Position of a theme in the order the lists are checked. */
  function Rank(t: Theme): nat {
    match t
    case Strength => 0
    case Love => 1
    case Community => 2
    case Medical => 3
    case Success => 4
    case Hope => 5
  }

  /** The if/elif chain of `get_emoji_theme` on lower-cased text. The result's
      list has a keyword in the text (unless it is hope), and no list checked
      before it does. */
  function Classify(low: string): (t: Theme)
    ensures t != Hope ==> AnyContains(low, Words(t))
    ensures forall u: Theme :: Rank(u) < Rank(t) ==> !AnyContains(low, Words(u))
  {
    if AnyContains(low, StrengthWords) then Strength
    else if AnyContains(low, LoveWords) then Love
    else if AnyContains(low, CommunityWords) then Community
    else if AnyContains(low, MedicalWords) then Medical
    else if AnyContains(low, SuccessWords) then Success
    else Hope
  }

  /** First-match priority determines the theme: any theme whose list
      matches (or which is hope) while no earlier list matches is the
      classifier's answer. */
  lemma FirstMatchUnique(low: string, t: Theme)
    requires t != Hope ==> AnyContains(low, Words(t))
    requires forall u: Theme :: Rank(u) < Rank(t) ==> !AnyContains(low, Words(u))
    ensures Classify(low) == t
  {
    assert Rank(Classify(low)) == Rank(t);
  }

  /** `get_emoji_theme`: the theme of the lower-cased text with its constant
      metadata record. */
  function GetEmojiTheme(text: string): (d: ThemeData)
    ensures d == Metadata(d.theme)
    ensures d.theme != Hope ==> AnyContains(Lower(text), Words(d.theme))
    ensures forall u: Theme :: Rank(u) < Rank(d.theme) ==> !AnyContains(Lower(text), Words(u))
  {
    Metadata(Classify(Lower(text)))
  }

  /** Hope is returned exactly when no list has a keyword in the text. */
  lemma HopeIsDefault(text: string)
    ensures GetEmojiTheme(text).theme == Hope
        <==> forall u: Theme :: !AnyContains(Lower(text), Words(u))
  {
    var t := GetEmojiTheme(text).theme;
    if t != Hope {
      assert AnyContains(Lower(text), Words(t));
    } else {
      assert forall u: Theme :: Rank(u) < 5 || u == Hope;
    }
  }

  /** "υποστήριξη" is on the love list and the community list; it always
      gives love unless a strength keyword is present. */
  lemma SupportGivesLove(text: string)
    requires Contains(Lower(text), "υποστήριξη")
    requires !AnyContains(Lower(text), StrengthWords)
    ensures GetEmojiTheme(text).theme == Love
  {
    var low := Lower(text);
    assert "υποστήριξη" in LoveWords;
    assert AnyContains(low, LoveWords);
    assert Classify(low) == Love;
  }

  /** Community is given only when no strength or love keyword is present,
      so the community list's "υποστήριξη" can never be what selects it. */
  lemma CommunityExcludesEarlier(text: string)
    requires GetEmojiTheme(text).theme == Community
    ensures !AnyContains(Lower(text), StrengthWords) && !AnyContains(Lower(text), LoveWords)
    ensures !Contains(Lower(text), "υποστήριξη")
  {
    assert Rank(Love) < Rank(Community) && Rank(Strength) < Rank(Community);
    assert "υποστήριξη" in LoveWords;
  }
}
