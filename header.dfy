/**
 * The header's two helpers: the initials shown in the avatar and the style
 * of the role badge.
 *
 * `name.split(' ')` is modelled on code points; `word[0]` of an empty word
 * is `undefined`, which `join('')` renders as nothing.
 */
module Header {
  import opened Wrappers
  import opened Text

  /** `s.split(' ')`: the pieces between single spaces, empty pieces included. */
  function Split(s: string): (r: seq<string>)
    ensures |r| >= 1
    ensures forall i :: 0 <= i < |r| ==> ' ' !in r[i]
  {
    if s == [] then [""]
    else
      var rest := Split(s[1..]);
      if s[0] == ' ' then [""] + rest
      else [[s[0]] + rest[0]] + rest[1..]
  }

  /** `words.join(' ')`. */
  function Join(words: seq<string>): string
    requires |words| >= 1
  {
    if |words| == 1 then words[0] else words[0] + " " + Join(words[1..])
  }

  /** Splitting loses nothing: joining the pieces with spaces gives the string back. */
  lemma {:induction false} JoinSplit(s: string)
    ensures Join(Split(s)) == s
  {
    if s != [] {
      var rest := Split(s[1..]);
      JoinSplit(s[1..]);
      if s[0] == ' ' {
        assert ([""] + rest)[1..] == rest;
        assert s == " " + s[1..];
      } else {
        var w := [[s[0]] + rest[0]] + rest[1..];
        assert w[1..] == rest[1..];
        if |rest| == 1 {
          assert s == [s[0]] + rest[0];
        } else {
          assert Join(rest) == rest[0] + " " + Join(rest[1..]);
          assert s == [s[0]] + s[1..];
        }
      }
    }
  }

  /** `words.map(word => word[0]).join('')`: the first character of every non-empty word. */
  function Heads(words: seq<string>): (r: string)
    ensures |r| <= |words|
  {
    if words == [] then []
    else (if words[0] == "" then [] else [words[0][0]]) + Heads(words[1..])
  }

  /**
   * Reference definition: the characters of `s` that begin a word, that is,
   * are not spaces and come first or right after a space (`atStart` says
   * whether the position before `s` counts as a space).
   */
  function WordStarts(s: string, atStart: bool): (r: string)
    ensures |r| <= |s|
  {
    if s == [] then []
    else (if atStart && s[0] != ' ' then [s[0]] else []) + WordStarts(s[1..], s[0] == ' ')
  }

  /** The heads of the split pieces are exactly the word starts: repeated spaces add nothing. */
  lemma {:induction false} HeadsOfSplit(s: string)
    ensures Heads(Split(s)) == WordStarts(s, true)
    ensures Heads(Split(s)[1..]) == WordStarts(s, false)
  {
    if s != [] {
      HeadsOfSplit(s[1..]);
      var rest := Split(s[1..]);
      if s[0] == ' ' {
        assert ([""] + rest)[1..] == rest;
      } else {
        var w := [[s[0]] + rest[0]] + rest[1..];
        assert w[1..] == rest[1..];
        assert rest == [rest[0]] + rest[1..];
      }
    }
  }

  /** `getInitials`: `'U'` for a falsy name, else the upper-cased word starts, cut to two. */
  function GetInitials(name: Option<string>): (r: string)
    ensures name.None? || name.value == "" ==> r == "U"
    ensures |r| <= 2
  {
    if name.None? || name.value == "" then "U"
    else Prefix(Upper(Heads(Split(name.value))), 2)
  }

  /** The initials of a non-empty name are the first two word starts, upper-cased. */
  lemma InitialsAreWordStarts(name: string)
    requires name != ""
    ensures GetInitials(Some(name)) == Prefix(Upper(WordStarts(name, true)), 2)
  {
    HeadsOfSplit(name);
  }

  /** A name of spaces alone has no word starts. */
  lemma {:induction false} NoStartsInSpaces(s: string, atStart: bool)
    requires forall i :: 0 <= i < |s| ==> s[i] == ' '
    ensures WordStarts(s, atStart) == []
  {
    if s != [] {
      NoStartsInSpaces(s[1..], true);
    }
  }

  /** A truthy name made only of spaces yields `''`, not `'U'`. */
  lemma SpacesOnlyYieldEmpty(name: string)
    requires name != "" && forall i :: 0 <= i < |name| ==> name[i] == ' '
    ensures GetInitials(Some(name)) == ""
  {
    InitialsAreWordStarts(name);
    NoStartsInSpaces(name, true);
  }

  /** Two words separated by several spaces give both initials. */
  lemma InitialsOfTwoWords()
    ensures GetInitials(Some("ab  c")) == "AC"
  {
    InitialsAreWordStarts("ab  c");
    assert WordStarts("c", true) == "c";
    assert WordStarts(" c", true) == "c";
    assert WordStarts("  c", false) == "c";
    assert WordStarts("b  c", false) == "c";
    assert WordStarts("ab  c", true) == "ac";
    assert Upper("ac") == "AC";
  }

  /** `getRoleBadge`: purple for a manager, blue for every other role. */
  function RoleBadgeStyle(role: Option<string>): (r: string)
    ensures r == "bg-purple-100 text-purple-700" <==> role == Some("manager")
    ensures r != "bg-purple-100 text-purple-700" ==> r == "bg-blue-100 text-blue-700"
  {
    if role == Some("manager") then "bg-purple-100 text-purple-700" else "bg-blue-100 text-blue-700"
  }
}
