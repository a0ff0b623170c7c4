/** The pure display helpers of the marketplace page
    (src/pages/DigitalSavannaMarketplace.tsx). */
module SavannaHelpers {

  // ---------------------------------------------------------------------
  // Urgency border (getUrgencyBorder)
  // ---------------------------------------------------------------------

  const HighUrgencyBorder: string := "border-l-4 border-red-500"
  const MediumUrgencyBorder: string := "border-l-4 border-yellow-500"
  const LowUrgencyBorder: string := "border-l-4 border-green-500"

  predicate IsKnownUrgency(urgency: string) {
    urgency == "high" || urgency == "medium" || urgency == "low"
  }

  /** The card border class for a product's urgency; no border otherwise. */
  function UrgencyBorder(urgency: string): (border: string)
    ensures border == "" <==> !IsKnownUrgency(urgency)
  {
    match urgency
    case "high" => HighUrgencyBorder
    case "medium" => MediumUrgencyBorder
    case "low" => LowUrgencyBorder
    case _ => ""
  }

  /** Different known urgencies get different borders. */
  lemma UrgencyBorderDistinguishes(u: string, v: string)
    requires IsKnownUrgency(u) && IsKnownUrgency(v) && u != v
    ensures UrgencyBorder(u) != UrgencyBorder(v)
  {
    assert HighUrgencyBorder[18] == 'r' && MediumUrgencyBorder[18] == 'y' && LowUrgencyBorder[18] == 'g';
  }

  // ---------------------------------------------------------------------
  // Pride badge (getPrideBadge)
  // ---------------------------------------------------------------------

  datatype Badge = Badge(icon: string, color: string, text: string)

  const AlphaBadge: Badge := Badge("\U{1F451}", "bg-gradient-to-r from-yellow-400 to-orange-500", "Alpha")
  const LionBadge: Badge := Badge("\U{1F981}", "bg-gradient-to-r from-orange-400 to-red-500", "Lion")
  const CubBadge: Badge := Badge("\U{1F43E}", "bg-gradient-to-r from-blue-400 to-indigo-500", "Cub")
  /** What a supplier of unknown pride level is shown with. */
  const FallbackBadge: Badge := Badge("\U{1F43E}", "bg-gray-400", "Cub")

  predicate IsKnownPrideLevel(level: string) {
    level == "alpha" || level == "lion" || level == "cub"
  }

  /** The badge for a supplier's pride level. */
  function PrideBadge(level: string): (badge: Badge)
    ensures !IsKnownPrideLevel(level) ==> badge == FallbackBadge
  {
    match level
    case "alpha" => AlphaBadge
    case "lion" => LionBadge
    case "cub" => CubBadge
    case _ => FallbackBadge
  }

  /** An unknown level reads as "Cub" with the cub's paw icon; only its
      colour tells it apart from a real cub. The three known levels all have
      different texts. */
  lemma UnknownLevelReadsAsCub(level: string, other: string)
    requires !IsKnownPrideLevel(level)
    ensures PrideBadge(level).text == PrideBadge("cub").text == "Cub"
    ensures PrideBadge(level).icon == PrideBadge("cub").icon
    ensures PrideBadge(level).color != PrideBadge("cub").color
    ensures IsKnownPrideLevel(other) && other != "cub" ==> PrideBadge(other).text != "Cub"
  {
    assert FallbackBadge.color[3] == 'g' && CubBadge.color[3] == 'g';
    assert |FallbackBadge.color| != |CubBadge.color|;
  }

  // ---------------------------------------------------------------------
  // Supplier initials: name.split(" ").map(n => n[0]).join("")
  // ---------------------------------------------------------------------

  /** JavaScript's `s.split(" ")`: the pieces between single spaces, so that
      two spaces in a row give an empty piece and the empty string gives one
      empty piece. */
  function Split(s: string): (pieces: seq<string>)
    ensures |pieces| == Spaces(s) + 1
    ensures forall i :: 0 <= i < |pieces| ==> ' ' !in pieces[i]
    ensures Join(pieces) == s
  {
    if s == [] then [[]]
    else if s[0] == ' ' then
      var rest := Split(s[1..]);
      assert Join([[]] + rest) == [] + " " + Join(rest);
      [[]] + rest
    else
      var rest := Split(s[1..]);
      var pieces := [[s[0]] + rest[0]] + rest[1..];
      assert pieces[1..] == rest[1..];
      if |rest| == 1 then pieces
      else
        assert Join(pieces) == [s[0]] + (rest[0] + " " + Join(rest[1..]));
        pieces
  }

  /** The pieces put back together with a space between each two: the
      inverse of `Split`. */
  function Join(pieces: seq<string>): string
    requires pieces != []
  {
    if |pieces| == 1 then pieces[0] else pieces[0] + " " + Join(pieces[1..])
  }

  /** The number of spaces in `s`. */
  function Spaces(s: string): nat {
    if s == [] then 0 else (if s[0] == ' ' then 1 else 0) + Spaces(s[1..])
  }

  /** `n[0]` of each piece, joined: an empty piece gives `undefined`, which
      `join` turns into nothing. */
  function FirstChars(pieces: seq<string>): (initials: string)
    ensures |initials| <= |pieces|
  {
    if pieces == [] then []
    else (if pieces[0] == [] then [] else [pieces[0][0]]) + FirstChars(pieces[1..])
  }

  /** Splitting a space-free word followed by a space and more text gives
      that word, then the pieces of the rest. */
  lemma {:induction false} SplitAfterWord(word: string, rest: string)
    requires ' ' !in word
    ensures Split(word + " " + rest) == [word] + Split(rest)
  {
    if word != [] {
      var text := word + " " + rest;
      assert text[0] == word[0] && word[0] != ' ';
      assert text[1..] == word[1..] + " " + rest;
      SplitAfterWord(word[1..], rest);
      var r := Split(text[1..]);
      assert r == [word[1..]] + Split(rest);
      assert Split(text) == [[text[0]] + r[0]] + r[1..];
      assert [word[0]] + word[1..] == word;
    } else {
      assert word + " " + rest == [' '] + rest;
    }
  }

  /** Joining space-free pieces and splitting again gives back the pieces:
      together with `Split`'s contract, the two are inverses. */
  lemma {:induction false} SplitJoin(pieces: seq<string>)
    requires pieces != []
    requires forall i :: 0 <= i < |pieces| ==> ' ' !in pieces[i]
    ensures Split(Join(pieces)) == pieces
  {
    if |pieces| > 1 {
      SplitJoin(pieces[1..]);
      SplitAfterWord(pieces[0], Join(pieces[1..]));
    } else {
      SplitSpaceFree(pieces[0]);
    }
  }

  lemma {:induction false} SplitSpaceFree(word: string)
    requires ' ' !in word
    ensures Split(word) == [word]
  {
    if word != [] {
      SplitSpaceFree(word[1..]);
    }
  }

  /** Each piece adds its own first character, if any, after those of the
      pieces before it. */
  lemma {:induction false} FirstCharsAppend(pieces: seq<string>, piece: string)
    ensures FirstChars(pieces + [piece]) == FirstChars(pieces) + (if piece == [] then [] else [piece[0]])
  {
    if pieces != [] {
      assert (pieces + [piece])[1..] == pieces[1..] + [piece];
      FirstCharsAppend(pieces[1..], piece);
    }
  }

  /** The initials shown in a supplier's avatar. */
  function Initials(name: string): (initials: string)
    ensures |initials| <= Spaces(name) + 1
  {
    FirstChars(Split(name))
  }

  /** Reference definition: the characters of `s` that start a word, that
      is, non-space characters at the start of `s` (when `atWordStart`) or
      right after a space. */
  function WordStarts(s: string, atWordStart: bool): string {
    if s == [] then []
    else if s[0] == ' ' then WordStarts(s[1..], true)
    else (if atWordStart then [s[0]] else []) + WordStarts(s[1..], false)
  }

  /** The first piece of a split starts with the first character of `s`
      unless `s` is empty or starts with a space, and the later pieces
      contribute exactly the word starts of `s` after its first character. */
  lemma {:induction false} SplitStarts(s: string)
    ensures Split(s)[0] == [] <==> s == [] || s[0] == ' '
    ensures Split(s)[0] != [] ==> Split(s)[0][0] == s[0]
    ensures FirstChars(Split(s)[1..]) == WordStarts(s, false)
  {
    if s != [] {
      SplitStarts(s[1..]);
      var rest := Split(s[1..]);
      if s[0] == ' ' {
        assert Split(s)[1..] == rest;
        assert FirstChars(rest) == (if rest[0] == [] then [] else [rest[0][0]]) + FirstChars(rest[1..]);
      } else {
        assert Split(s)[1..] == rest[1..];
      }
    }
  }

  /** The avatar shows exactly the first letter of every word of the name,
      in order; runs of spaces and leading or trailing spaces add nothing. */
  lemma InitialsAreWordStarts(name: string)
    ensures Initials(name) == WordStarts(name, true)
  {
    SplitStarts(name);
    var pieces := Split(name);
    assert FirstChars(pieces) == (if pieces[0] == [] then [] else [pieces[0][0]]) + FirstChars(pieces[1..]);
  }
}
