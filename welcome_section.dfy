/**
 * The text shown by src/components/dashboard/WelcomeSection.tsx: the avatar
 * initials (`name.split(' ').map(n => n[0]).join('').toUpperCase()`), the
 * first name in the greeting (`name.split(' ')[0]`) and the choice between
 * the picture and the initials.  Upper-casing is modelled for ASCII only.
 */
module WelcomeSection {
  import opened Wrappers

  /** `s.split(' ')`: the pieces between single spaces; never empty, and pieces may be "". */
  function Split(s: string): (pieces: seq<string>)
    ensures |pieces| >= 1
    decreases |s|
  {
    if s == [] then [""]
    else
      var rest := Split(s[1..]);
      if s[0] == ' ' then [""] + rest
      else [[s[0]] + rest[0]] + rest[1..]
  }

  /** `pieces.join(' ')` for a non-empty list. */
  function Join(pieces: seq<string>): (s: string)
    requires |pieces| >= 1
    decreases |pieces|
  {
    if |pieces| == 1 then pieces[0] else pieces[0] + " " + Join(pieces[1..])
  }

  /** No piece holds a space. */
  lemma {:induction false} SplitHasNoSpaces(s: string)
    ensures forall k :: 0 <= k < |Split(s)| ==> ' ' !in Split(s)[k]
    decreases |s|
  {
    if s != [] {
      SplitHasNoSpaces(s[1..]);
      var rest := Split(s[1..]);
      if s[0] != ' ' {
        assert forall k :: 1 <= k < |Split(s)| ==> Split(s)[k] == rest[k];
      } else {
        assert forall k :: 1 <= k < |Split(s)| ==> Split(s)[k] == rest[k - 1];
      }
    }
  }

  /** Joining the pieces with spaces gives the name back. */
  lemma {:induction false} JoinSplit(s: string)
    ensures Join(Split(s)) == s
    decreases |s|
  {
    if s != [] {
      JoinSplit(s[1..]);
      var rest := Split(s[1..]);
      if s[0] == ' ' {
        assert Split(s)[1..] == rest;
      } else if |rest| == 1 {
        assert Join(Split(s)) == [s[0]] + rest[0];
      } else {
        var ps := Split(s);
        assert ps[1..] == rest[1..];
        assert Join(rest) == rest[0] + " " + Join(rest[1..]);
        assert Join(ps) == ([s[0]] + rest[0]) + " " + Join(rest[1..]);
      }
    }
  }

  // ---------------------------------------------------------------------
  // Initials
  // ---------------------------------------------------------------------

  /** `pieces.map(n => n[0]).join('')`: an empty piece gives undefined, which join renders as "". */
  function FirstChars(pieces: seq<string>): (r: string)
    ensures |r| == |NonEmpty(pieces)|
    decreases |pieces|
  {
    if pieces == [] then []
    else (if pieces[0] == "" then "" else [pieces[0][0]]) + FirstChars(pieces[1..])
  }

  /** The non-empty pieces, in order. */
  function NonEmpty(pieces: seq<string>): (r: seq<string>)
    ensures forall k :: 0 <= k < |r| ==> r[k] != ""
    decreases |pieces|
  {
    if pieces == [] then []
    else if pieces[0] == "" then NonEmpty(pieces[1..])
    else [pieces[0]] + NonEmpty(pieces[1..])
  }

  function UpperChar(c: char): char {
    if 'a' <= c <= 'z' then (c as int - 32) as char else c
  }

  /** `toUpperCase()` on ASCII text. */
  function Upper(s: string): (r: string)
    ensures |r| == |s|
    ensures forall k :: 0 <= k < |s| && 'a' <= s[k] <= 'z' ==> r[k] as int == s[k] as int - 32
    ensures forall k :: 0 <= k < |s| && !('a' <= s[k] <= 'z') ==> r[k] == s[k]
  {
    seq(|s|, k requires 0 <= k < |s| => UpperChar(s[k]))
  }

  function Initials(name: string): (r: string)
    ensures |r| == |NonEmpty(Split(name))|
  {
    Upper(FirstChars(Split(name)))
  }

  /** One character per non-empty piece: the first one of that piece. */
  lemma {:induction false} FirstCharsOfNonEmpty(pieces: seq<string>)
    ensures |FirstChars(pieces)| == |NonEmpty(pieces)|
    ensures forall k :: 0 <= k < |FirstChars(pieces)| ==> FirstChars(pieces)[k] == NonEmpty(pieces)[k][0]
    decreases |pieces|
  {
    if pieces != [] {
      FirstCharsOfNonEmpty(pieces[1..]);
    }
  }

  /**
   * The initials are the upper-cased first characters of the non-empty
   * pieces of the name, one per piece; empty pieces (from leading, trailing
   * or repeated spaces) contribute nothing.
   */
  lemma InitialsOfPieces(name: string)
    ensures |Initials(name)| == |NonEmpty(Split(name))|
    ensures forall k :: 0 <= k < |Initials(name)| ==>
      Initials(name)[k] == UpperChar(NonEmpty(Split(name))[k][0])
  {
    FirstCharsOfNonEmpty(Split(name));
  }

  /**
   * A reference definition read off the name itself: the characters that
   * start a word, that is, that are not a space and follow a space or the
   * start of the name.  `afterSpace` says whether the previous character
   * was a space (or there was none).
   */
  function WordStarts(s: string, afterSpace: bool): (r: string)
    decreases |s|
  {
    if s == [] then []
    else (if afterSpace && s[0] != ' ' then [s[0]] else []) + WordStarts(s[1..], s[0] == ' ')
  }

  lemma {:induction false} WordStartsSplit(s: string)
    ensures WordStarts(s, true) == FirstChars(Split(s))
    ensures WordStarts(s, false) == FirstChars(Split(s)[1..])
    decreases |s|
  {
    if s != [] {
      WordStartsSplit(s[1..]);
      var rest := Split(s[1..]);
      if s[0] == ' ' {
        assert Split(s) == [""] + rest;
        assert Split(s)[1..] == rest;
      } else {
        var ps := Split(s);
        assert ps[1..] == rest[1..];
        assert ps[0] == [s[0]] + rest[0];
      }
    }
  }

  /** The initials are exactly the upper-cased word-starting characters of the name. */
  lemma InitialsAreWordStarts(name: string)
    ensures Initials(name) == Upper(WordStarts(name, true))
  {
    WordStartsSplit(name);
  }

  /** Upper-casing again changes nothing: the initials are already upper case. */
  lemma InitialsUpperCase(name: string)
    ensures Upper(Initials(name)) == Initials(name)
    ensures forall k :: 0 <= k < |Initials(name)| ==> !('a' <= Initials(name)[k] <= 'z')
  {
  }

  // ---------------------------------------------------------------------
  // Greeting
  // ---------------------------------------------------------------------

  /** `name.split(' ')[0]` */
  function FirstName(name: string): (r: string)
    ensures ' ' !in r
  {
    SplitHasNoSpaces(name);
    Split(name)[0]
  }

  /** The first name is the text before the first space, or the whole name when it has none. */
  lemma {:induction false} FirstNameIsPrefix(name: string)
    ensures ' ' !in FirstName(name)
    ensures ' ' !in name ==> FirstName(name) == name
    ensures ' ' in name ==>
      |FirstName(name)| < |name| &&
      name[..|FirstName(name)|] == FirstName(name) && name[|FirstName(name)|] == ' '
    decreases |name|
  {
    SplitHasNoSpaces(name);
    if name != [] && name[0] != ' ' {
      FirstNameIsPrefix(name[1..]);
      assert FirstName(name) == [name[0]] + FirstName(name[1..]);
      if ' ' !in name[1..] {
        assert name == [name[0]] + name[1..];
      }
    }
  }

  // ---------------------------------------------------------------------
  // Avatar
  // ---------------------------------------------------------------------

  datatype Avatar = Image(src: string, alt: string) | Fallback(initials: string)

  /** The picture when profilePicture is truthy (set and non-empty), the initials otherwise. */
  function AvatarFor(name: string, profilePicture: Option<string>): (a: Avatar)
    ensures a.Image? <==> profilePicture.Some? && profilePicture.value != ""
    ensures a.Image? ==> a.src == profilePicture.value && a.alt == name
    ensures a.Fallback? ==> a.initials == Initials(name)
  {
    match profilePicture
    case Some(src) => if src != "" then Image(src, name) else Fallback(Initials(name))
    case None => Fallback(Initials(name))
  }
}
