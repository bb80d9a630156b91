/** The testimonials section: a star rating per testimonial, avatar initials
    built from the author's name, and a stats bar whose counters animate up to
    the digits of each stat. */
module Testimonials {
  import opened Sequences
  import opened Text

  /** The number of stars `renderStars` draws. */
  const StarCount: nat := 5

  /** `renderStars(rating)`: five stars, star `i` (from 0) filled when `i < rating`. */
  function Stars(rating: int): (stars: seq<bool>)
    ensures |stars| == StarCount
  {
    seq(StarCount, i => i < rating)
  }

  /** The number of filled stars a rating should show: the rating itself on 0..5. */
  function ClampedRating(rating: int): (n: nat)
    ensures n <= StarCount
    ensures 0 <= rating <= StarCount ==> n == rating
  {
    if rating < 0 then 0 else if rating > StarCount then StarCount else rating
  }

  function IsFilled(star: bool): bool
  {
    star
  }

  /** The filled stars come first: the row is `ClampedRating(rating)` filled stars
      followed by empty ones. */
  lemma StarsLayout(rating: int)
    ensures var c := ClampedRating(rating);
      Stars(rating) == seq(c, _ => true) + seq(StarCount - c, _ => false)
  {
    var c := ClampedRating(rating);
    var layout := seq(c, _ => true) + seq(StarCount - c, _ => false);
    assert |layout| == StarCount;
    forall i | 0 <= i < StarCount ensures Stars(rating)[i] == layout[i] {
      if i < c {
        assert layout[i] == true;
      } else {
        assert layout[i] == seq(StarCount - c, _ => false)[i - c];
      }
    }
  }

  /** For a rating from 0 to 5 exactly `rating` stars are filled; below 0 none
      are, above 5 all five are. */
  lemma FilledStars(rating: int)
    ensures |Filter(Stars(rating), IsFilled)| == ClampedRating(rating)
  {
    var c := ClampedRating(rating);
    var filled, empty := seq(c, _ => true), seq(StarCount - c, _ => false);
    StarsLayout(rating);
    FilterConcat(filled, empty, IsFilled);
    FilterKeepsAll(filled, IsFilled);
    FilterKeepsNone(empty, IsFilled);
  }

  /** `words.map(n => n[0]).join('')`: the first character of each word; an empty
      word (from a doubled space) gives `undefined`, which `join` prints as nothing. */
  function FirstLetters(words: seq<string>): (r: string)
    ensures |r| <= |words|
  {
    if words == [] then ""
    else (if words[0] == "" then "" else [words[0][0]]) + FirstLetters(words[1..])
  }

  /** When no word is empty there is exactly one initial per word, and it is that
      word's first character. */
  lemma {:induction false} FirstLettersOfWords(words: seq<string>)
    requires forall k :: 0 <= k < |words| ==> words[k] != ""
    ensures |FirstLetters(words)| == |words|
    ensures forall k :: 0 <= k < |words| ==> FirstLetters(words)[k] == words[k][0]
  {
    if words != [] {
      FirstLettersOfWords(words[1..]);
    }
  }

  function IsWord(w: string): bool
  {
    w != ""
  }

  /** Empty pieces (from a leading, trailing or doubled space) add no initial: the
      initials are those of the non-empty words alone. */
  lemma {:induction false} EmptyWordsAddNothing(words: seq<string>)
    ensures FirstLetters(words) == FirstLetters(Filter(words, IsWord))
  {
    if words != [] {
      EmptyWordsAddNothing(words[1..]);
      if IsWord(words[0]) {
        assert Filter(words, IsWord)[1..] == Filter(words[1..], IsWord);
      }
    }
  }

  /** A doubled space and a leading space are skipped. */
  lemma SpacesSkipped()
    ensures Initials("A  B") == "AB"
    ensures Initials(" S") == "S"
  {
    assert Join(["A", "", "B"], ' ') == "A  B";
    SplitJoin(["A", "", "B"], ' ');
    assert FirstLetters(["A", "", "B"]) == "AB";
    assert Join(["", "S"], ' ') == " S";
    SplitJoin(["", "S"], ' ');
    assert FirstLetters(["", "S"]) == "S";
  }

  /** The avatar fallback: `author.split(' ').map(n => n[0]).join('')`. */
  function Initials(author: string): (r: string)
    ensures |r| <= |Split(author, ' ')|
  {
    FirstLetters(Split(author, ' '))
  }

  /** Initials of a name whose words are separated by single spaces. */
  lemma InitialsOfWords(author: string, words: seq<string>)
    requires |words| >= 1
    requires forall k :: 0 <= k < |words| ==> words[k] != "" && ' ' !in words[k]
    requires author == Join(words, ' ')
    ensures |Initials(author)| == |words|
    ensures forall k :: 0 <= k < |words| ==> Initials(author)[k] == words[k][0]
  {
    SplitJoin(words, ' ');
    FirstLettersOfWords(words);
  }

  /** "Dr. Sarah Chen" gets "DSC". */
  lemma ChenInitials()
    ensures Initials("Dr. Sarah Chen") == "DSC"
  {
    var words := ["Dr.", "Sarah", "Chen"];
    assert Join(words, ' ') == "Dr. Sarah Chen";
    InitialsOfWords("Dr. Sarah Chen", words);
    var r := Initials("Dr. Sarah Chen");
    assert r[0] == 'D' && r[1] == 'S' && r[2] == 'C';
  }

  /** "Michael Rodriguez, RN" gets "MRR": the credential after the comma counts as
      a word of its own. */
  lemma RodriguezInitials()
    ensures Initials("Michael Rodriguez, RN") == "MRR"
  {
    var words := ["Michael", "Rodriguez,", "RN"];
    assert Join(words, ' ') == "Michael Rodriguez, RN";
    InitialsOfWords("Michael Rodriguez, RN", words);
    var r := Initials("Michael Rodriguez, RN");
    assert r[0] == 'M' && r[1] == 'R' && r[2] == 'R';
  }

  /** "Lisa Thompson" gets "LT". */
  lemma ThompsonInitials()
    ensures Initials("Lisa Thompson") == "LT"
  {
    var words := ["Lisa", "Thompson"];
    assert Join(words, ' ') == "Lisa Thompson";
    InitialsOfWords("Lisa Thompson", words);
    var r := Initials("Lisa Thompson");
    assert r[0] == 'L' && r[1] == 'T';
  }

  /** One entry of the stats bar. */
  datatype Stat = Stat(value: string, caption: string, suffix: string)

  const Stats: seq<Stat> := [
    Stat("4.9", "Average Rating", "/5"),
    Stat("500", "Healthcare Partners", "+"),
    Stat("98", "Customer Satisfaction", "%")
  ]

  /** The counter target `stat.value.replace(/[^0-9]/g, '')`: the digits of the
      value, each as often as it occurs there and in the same order. */
  function DataValue(s: Stat): (target: string)
    ensures IsSubsequence(target, s.value)
    ensures forall c :: IsDigit(c) ==> multiset(target)[c] == multiset(s.value)[c]
    ensures forall i :: 0 <= i < |target| ==> IsDigit(target[i])
  {
    StripNonDigitsProperties(s.value);
    StripNonDigits(s.value)
  }

  /** "4.9" animates to 49 (the decimal point is dropped), "500" to 500 and "98" to 98. */
  lemma StatDataValues()
    ensures DataValue(Stats[0]) == "49"
    ensures DataValue(Stats[1]) == "500"
    ensures DataValue(Stats[2]) == "98"
  {
    assert Stats[0].value == "4.9" && Stats[1].value == "500" && Stats[2].value == "98";
    assert StripNonDigits("4.9") == "49";
    StripAllDigits("500");
    StripAllDigits("98");
  }
}
