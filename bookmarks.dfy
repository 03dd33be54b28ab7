/**
 * The parent's conversation prompts: a bookmark toggle per prompt, the
 * colour class of each prompt's category badge, and the line that counts
 * the bookmarked prompts.
 */
module Bookmarks {
  import opened Rewards

  /** The set after toggling `id`: removed when present, added when absent. */
  function Toggled(s: set<string>, id: string): set<string>
  {
    if id in s then s - {id} else s + {id}
  }

  /**
   * A toggle flips the membership of `id`, leaves every other id as it was,
   * changes the size by exactly one, and a second toggle undoes the first.
   */
  lemma ToggleFacts(s: set<string>, id: string)
    ensures id in Toggled(s, id) <==> id !in s
    ensures forall x :: x != id ==> (x in Toggled(s, id) <==> x in s)
    ensures |Toggled(s, id)| == if id in s then |s| - 1 else |s| + 1
    ensures Toggled(Toggled(s, id), id) == s
  {
  }

  /** Toggles on different ids can be made in either order. */
  lemma ToggleCommutes(s: set<string>, a: string, b: string)
    ensures Toggled(Toggled(s, a), b) == Toggled(Toggled(s, b), a)
  {
  }

  /** The set of bookmarked prompt ids, as the component holds it. */
  class BookmarkList {
    var bookmarked: set<string>

    constructor ()
      ensures bookmarked == {}
    {
      bookmarked := {};
    }

    /** `toggleBookmark`: works on a copy of the set and stores the copy. */
    method Toggle(id: string)
      modifies this
      ensures bookmarked == Toggled(old(bookmarked), id)
    {
      var copy := bookmarked;
      if id in copy {
        copy := copy - {id};
      } else {
        copy := copy + {id};
      }
      bookmarked := copy;
    }

    function IsBookmarked(id: string): bool
      reads this
    {
      id in bookmarked
    }

    /** The summary line under the prompts. */
    function SummaryLine(): Option<string>
      reads this
    {
      Summary(|bookmarked|)
    }
  }

  /** The decimal digits of `n`, as string interpolation writes a count. */
  function NatToString(n: nat): (r: string)
    ensures |r| >= 1 && forall i :: 0 <= i < |r| ==> '0' <= r[i] <= '9'
    decreases n
  {
    if n < 10 then [DigitChar(n)] else NatToString(n / 10) + [DigitChar(n % 10)]
  }

  function DigitChar(d: nat): (c: char)
    requires d < 10
    ensures '0' <= c <= '9'
  {
    ('0' as int + d) as char
  }

  /** Reads a string of decimal digits back as a number. */
  function ParseNat(s: string): nat
    requires forall i :: 0 <= i < |s| ==> '0' <= s[i] <= '9'
  {
    if s == [] then 0 else ParseNat(s[..|s| - 1]) * 10 + (s[|s| - 1] as int - '0' as int)
  }

  /** Writing a count and reading it back gives the count. */
  lemma {:induction false} NatToStringRoundTrip(n: nat)
    ensures ParseNat(NatToString(n)) == n
    decreases n
  {
    if n >= 10 {
      NatToStringRoundTrip(n / 10);
      var s := NatToString(n);
      assert s[..|s| - 1] == NatToString(n / 10);
    }
  }

  /** "prompt" in the singular exactly for one. */
  function PromptNoun(n: nat): (r: string)
    ensures r == "prompt" <==> n == 1
  {
    if n != 1 then "prompts" else "prompt"
  }

  /** `{size} prompt{size !== 1 ? 's' : ''} bookmarked for later`, shown only when something is bookmarked. */
  function Summary(n: nat): Option<string>
  {
    if n > 0 then Some(NatToString(n) + " " + PromptNoun(n) + " bookmarked for later") else None
  }

  /**
   * The summary appears exactly when the count is positive; it starts with
   * the count written in decimal and says "prompt" in the singular exactly
   * when one prompt is bookmarked.
   */
  lemma SummaryFacts(n: nat)
    ensures Summary(n).Some? <==> n > 0
    ensures n > 0 ==>
      var d := NatToString(n);
      Summary(n).value[..|d|] == d && ParseNat(d) == n &&
      Summary(n).value[|d|..] == " " + PromptNoun(n) + " bookmarked for later"
  {
    if n > 0 {
      NatToStringRoundTrip(n);
      var d := NatToString(n);
      var tail := " " + PromptNoun(n) + " bookmarked for later";
      assert Summary(n).value == d + tail;
      SplitAppend(d, tail);
    }
  }

  lemma SplitAppend(a: string, b: string)
    ensures (a + b)[..|a|] == a && (a + b)[|a|..] == b
  {
  }

  const GeneralColor: string := "bg-gray-100 text-gray-700 border-gray-200"
  const JoyColor: string := "bg-yellow-100 text-yellow-700 border-yellow-200"
  const SadnessColor: string := "bg-blue-100 text-blue-700 border-blue-200"
  const AngerColor: string := "bg-red-100 text-red-700 border-red-200"
  const FearColor: string := "bg-purple-100 text-purple-700 border-purple-200"

  /** The badge colour classes of the prompt categories, with the General one for any category without its own. */
  function CategoryColor(category: string): string
  {
    if category == "Joy" then JoyColor
    else if category == "Sadness" then SadnessColor
    else if category == "Anger" then AngerColor
    else if category == "Fear" then FearColor
    else GeneralColor
  }

  const EmotionCategories: seq<string> := ["Joy", "Sadness", "Anger", "Fear"]

  /** The five colour classes differ already in their fourth character: g(ray), y(ellow), b(lue), r(ed), p(urple). */
  lemma ColorsDiffer()
    ensures GeneralColor[3] == 'g' && JoyColor[3] == 'y' && SadnessColor[3] == 'b'
    ensures AngerColor[3] == 'r' && FearColor[3] == 'p'
  {
  }

  /** Each of the four emotion categories has its own colour, and every other category gets the General one. */
  lemma CategoryColorFacts(category: string)
    ensures CategoryColor(category) == GeneralColor <==> category !in EmotionCategories
    ensures CategoryColor("General") == GeneralColor
    ensures forall i, j :: 0 <= i < j < |EmotionCategories| ==>
      CategoryColor(EmotionCategories[i]) != CategoryColor(EmotionCategories[j])
  {
    ColorsDiffer();
    EmotionColors();
    if category in EmotionCategories {
      assert CategoryColor(category)[3] != 'g';
    }
  }

  /** The four emotion categories take their own colour constants. */
  lemma EmotionColors()
    ensures CategoryColor(EmotionCategories[0]) == JoyColor && CategoryColor(EmotionCategories[1]) == SadnessColor
    ensures CategoryColor(EmotionCategories[2]) == AngerColor && CategoryColor(EmotionCategories[3]) == FearColor
    ensures |EmotionCategories| == 4
  {
  }
}
