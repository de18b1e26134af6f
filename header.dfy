/**
 * The dashboard header's avatar fallback: the user's initials.
 */
module Header {
  import opened Wrappers
  import Text

  /** `parts.map(n => n[0]).join("")`: the first character of each piece; an empty piece adds nothing. */
  function FirstChars(parts: seq<string>): (r: string)
    ensures |r| <= |parts|
    ensures (forall i :: 0 <= i < |parts| ==> parts[i] == "") ==> r == ""
  {
    if parts == [] then ""
    else (if parts[0] == "" then "" else [parts[0][0]]) + FirstChars(parts[1..])
  }

  /** Splitting text made of a word, a space and more text gives the word followed by the pieces of the rest. */
  lemma {:induction false} SplitAfterWord(word: string, rest: string)
    requires ' ' !in word
    ensures Text.Split(word + " " + rest, ' ') == [word] + Text.Split(rest, ' ')
  {
    if word == [] {
      assert word + " " + rest == [' '] + rest;
      assert (word + " " + rest)[1..] == rest;
    } else {
      var s := word + " " + rest;
      assert s[1..] == word[1..] + " " + rest;
      SplitAfterWord(word[1..], rest);
      assert s[0] == word[0] && word[0] != ' ';
      assert [s[0]] + word[1..] == word;
    }
  }

  /** Text without a space is a single piece. */
  lemma {:induction false} SplitWithoutSpace(word: string)
    requires ' ' !in word
    ensures Text.Split(word, ' ') == [word]
  {
    if word != [] {
      SplitWithoutSpace(word[1..]);
      assert [word[0]] + word[1..] == word;
    }
  }

  /**
   * `getUserInitials`: with a non-empty full name, the first letters of its
   * space-separated words, uppercased and cut to two; otherwise the first two
   * characters of the email, uppercased; "U" when there is no email or it is
   * empty. Never more than two characters.
   */
  function Initials(fullName: Option<string>, email: Option<string>): (r: string)
    ensures |r| <= 2
    ensures fullName.Some? && fullName.value != "" ==>
      r == Text.Take(Text.Upper(FirstChars(Text.Split(fullName.value, ' '))), 2)
    ensures (fullName.None? || fullName.value == "") && email.Some? && email.value != "" ==>
      r == Text.Upper(Text.Take(email.value, 2))
    ensures (fullName.None? || fullName.value == "") && (email.None? || email.value == "") ==> r == "U"
  {
    if fullName.Some? && fullName.value != "" then
      Text.Take(Text.Upper(FirstChars(Text.Split(fullName.value, ' '))), 2)
    else if email.Some? && email.value != "" then
      Text.Upper(Text.Take(email.value, 2))
    else "U"
  }

  /** Two words give their two first letters, uppercased. */
  lemma TwoWordInitials(first: string, last: string, email: Option<string>)
    requires first != "" && last != "" && ' ' !in first && ' ' !in last
    ensures Initials(Some(first + " " + last), email) == [Text.UpperChar(first[0]), Text.UpperChar(last[0])]
  {
    SplitAfterWord(first, last);
    SplitWithoutSpace(last);
    assert FirstChars([first, last]) == [first[0], last[0]] by {
      assert [first, last][1..] == [last];
    }
  }

  /** A name of spaces only has no initials at all: the email is not consulted and "U" is not used. */
  lemma {:induction false} SpacesOnlyGiveNoInitials(n: nat, email: Option<string>)
    requires n > 0
    ensures Initials(Some(seq(n, _ => ' ')), email) == ""
  {
    var name := seq(n, _ => ' ');
    AllPiecesEmpty(name);
  }

  /** Splitting spaces only yields empty pieces. */
  lemma {:induction false} AllPiecesEmpty(s: string)
    requires forall i :: 0 <= i < |s| ==> s[i] == ' '
    ensures forall i :: 0 <= i < |Text.Split(s, ' ')| ==> Text.Split(s, ' ')[i] == ""
  {
    if s != [] {
      AllPiecesEmpty(s[1..]);
      assert Text.Split(s, ' ') == [""] + Text.Split(s[1..], ' ');
    }
  }
}
