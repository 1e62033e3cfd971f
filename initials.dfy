/**
 * The avatar initials of the navigation bar (`getInitials` of the layout
 * component): derived from the logged-in user's optional display name,
 * falling back to the username, and "U" when nobody is logged in.
 */
module AppLayout {
  import opened Options
  import opened Text

  /** The fields of the current user the avatar reads; `name` is optional at registration. */
  datatype User = User(name: Option<string>, username: string)

  /** JavaScript truthiness of `user.name`: present and not the empty string. */
  predicate HasName(u: User) {
    u.name.Some? && u.name.value != []
  }

  /**
   * What `${p[0]}` puts into a template literal: the first character, or the
   * text "undefined" when `p` is empty (indexing past the end yields `undefined`).
   */
  function FirstCharText(p: string): string {
    if p == [] then "undefined" else [p[0]]
  }

  /**
   * `getInitials` as written. Only an empty username would make it throw
   * (`undefined.toUpperCase()`); registration requires at least three characters.
   */
  function Initials(user: Option<User>): (r: string)
    requires user.Some? && !HasName(user.value) ==> user.value.username != []
    ensures r != []
    ensures user.Some? && !HasName(user.value) ==> |r| == 1
  {
    match user
    case None => "U"
    case Some(u) =>
      if HasName(u) then
        var parts := Split(u.name.value, ' ');
        if |parts| > 1 then
          ToUpper(FirstCharText(parts[0]) + FirstCharText(parts[|parts| - 1]))
        else
          ToUpper([u.name.value[0]])
      else
        ToUpper([u.username[0]])
  }

  lemma NoUserInitial()
    ensures Initials(None) == "U"
  {
  }

  /**
   * A name with a space, neither starting nor ending with one, gives the
   * upper-cased first character of the name and the upper-cased character after
   * its last space; every middle word is ignored.
   */
  lemma TwoWordInitials(u: User, j: nat)
    requires HasName(u)
    requires var n := u.name.value; j < |n| && n[j] == ' ' && (forall k :: j < k < |n| ==> n[k] != ' ')
    requires var n := u.name.value; n[0] != ' ' && n[|n| - 1] != ' '
    ensures var n := u.name.value; Initials(Some(u)) == [UpperChar(n[0]), UpperChar(n[j + 1])]
  {
    var n := u.name.value;
    var parts := Split(n, ' ');
    SeveralPartsIff(n, ' ');
    assert |parts| > 1;
    FirstPart(n, ' ');
    assert FirstCharText(parts[0]) == [n[0]];
    LastPart(n, ' ', j);
    assert j + 1 < |n|;
    assert FirstCharText(parts[|parts| - 1]) == [n[j + 1]];
    assert Initials(Some(u)) == ToUpper([n[0], n[j + 1]]);
  }

  /** A name without a space gives its own first character, upper-cased. */
  lemma OneWordInitial(u: User)
    requires HasName(u) && ' ' !in u.name.value
    ensures Initials(Some(u)) == [UpperChar(u.name.value[0])]
  {
    SeveralPartsIff(u.name.value, ' ');
  }

  /** Without a display name (absent or empty), the username's first character is used. */
  lemma UsernameFallback(u: User)
    requires !HasName(u) && u.username != []
    ensures Initials(Some(u)) == [UpperChar(u.username[0])]
  {
  }

  /**
   * As written, a name that ends with a space (say "Ada ") yields its first
   * initial followed by the text "UNDEFINED", because the last part is empty.
   */
  lemma TrailingSpaceShowsUndefined(u: User)
    requires HasName(u)
    requires var n := u.name.value; n[0] != ' ' && n[|n| - 1] == ' '
    ensures Initials(Some(u)) == [UpperChar(u.name.value[0])] + "UNDEFINED"
  {
    var n := u.name.value;
    var j := |n| - 1;
    var parts := Split(n, ' ');
    SeveralPartsIff(n, ' ');
    assert |parts| > 1;
    FirstPart(n, ' ');
    assert FirstCharText(parts[0]) == [n[0]];
    LastPart(n, ' ', j);
    assert n[j + 1..] == [];
    assert FirstCharText(parts[|parts| - 1]) == "undefined";
    assert Initials(Some(u)) == ToUpper([n[0]] + "undefined");
    ToUpperAppend([n[0]], "undefined");
    UndefinedUpperCased();
  }

  lemma UndefinedUpperCased()
    ensures ToUpper("undefined") == "UNDEFINED"
  {
    var r := ToUpper("undefined");
    assert r[0] == UpperChar('u') == 'U';
    assert r[1] == UpperChar('n') == 'N';
    assert r[2] == UpperChar('d') == 'D';
    assert r[3] == UpperChar('e') == 'E';
    assert r[4] == UpperChar('f') == 'F';
    assert r[5] == UpperChar('i') == 'I';
    assert r[6] == UpperChar('n') == 'N';
    assert r[7] == UpperChar('e') == 'E';
    assert r[8] == UpperChar('d') == 'D';
  }

  /**
   * A name that starts and ends with a space, such as a name of spaces only,
   * splits into empty parts at both ends: both initials are the text "undefined".
   */
  lemma SpacesAtBothEndsShowUndefinedTwice(u: User)
    requires HasName(u)
    requires var n := u.name.value; n[0] == ' ' && n[|n| - 1] == ' '
    ensures Initials(Some(u)) == "UNDEFINED" + "UNDEFINED"
  {
    EmptyPartsAtBothEnds(u.name.value);
    assert Initials(Some(u)) == ToUpper("undefined" + "undefined");
    UndefinedTwiceUpperCased();
  }

  lemma EmptyPartsAtBothEnds(n: string)
    requires n != [] && n[0] == ' ' && n[|n| - 1] == ' '
    ensures var parts := Split(n, ' '); |parts| > 1 && parts[0] == [] && parts[|parts| - 1] == []
  {
    var j := |n| - 1;
    SeveralPartsIff(n, ' ');
    FirstPart(n, ' ');
    LastPart(n, ' ', j);
    assert n[j + 1..] == [];
  }

  lemma UndefinedTwiceUpperCased()
    ensures ToUpper("undefined" + "undefined") == "UNDEFINED" + "UNDEFINED"
  {
    ToUpperAppend("undefined", "undefined");
    UndefinedUpperCased();
  }



  /** The parts that hold at least one character, in order. */
  function Words(parts: seq<string>): (w: seq<string>)
    ensures |w| <= |parts|
    ensures forall k :: 0 <= k < |w| ==> w[k] != [] && w[k] in parts
  {
    if parts == [] then []
    else (if parts[0] == [] then [] else [parts[0]]) + Words(parts[1..])
  }

  /** A last part that is not empty stays the last word. */
  lemma {:induction false} WordsKeepLast(parts: seq<string>)
    requires parts != [] && parts[|parts| - 1] != []
    ensures var w := Words(parts); w != [] && w[|w| - 1] == parts[|parts| - 1]
  {
    if |parts| > 1 {
      WordsKeepLast(parts[1..]);
    }
  }

  /** The last part of `s.split(sep)` is empty exactly when `s` is empty or ends with `sep`. */
  lemma {:induction false} LastPartNonEmpty(s: string, sep: char)
    requires s != [] && s[|s| - 1] != sep
    ensures var parts := Split(s, sep); parts[|parts| - 1] != []
  {
    if |s| > 1 {
      LastPartNonEmpty(s[1..], sep);
      assert s[1..][|s| - 2] == s[|s| - 1];
    }
  }

  /**
   * The evidently intended initials: the first characters of the first and the
   * last non-empty word of the name (so never the text "undefined"), the first
   * character of a one-word name, and the username's first character when the
   * name has no word at all.
   */
  function IntendedInitials(user: Option<User>): (r: string)
    requires user.Some? ==> user.value.username != []
    ensures 1 <= |r| <= 2
  {
    match user
    case None => "U"
    case Some(u) =>
      var words := if u.name.Some? then Words(Split(u.name.value, ' ')) else [];
      if |words| > 1 then ToUpper([words[0][0], words[|words| - 1][0]])
      else if |words| == 1 then ToUpper([words[0][0]])
      else ToUpper([u.username[0]])
  }

  /** Wherever the name neither starts nor ends with a space, the corrected version agrees with the code. */
  lemma IntendedAgreesOnTrimmedNames(u: User)
    requires u.username != []
    requires HasName(u) ==> var n := u.name.value; n[0] != ' ' && n[|n| - 1] != ' '
    ensures IntendedInitials(Some(u)) == Initials(Some(u))
  {
    if u.name.Some? && !HasName(u) {
      assert Split(u.name.value, ' ') == [""];
    }
    if HasName(u) {
      var n := u.name.value;
      var parts := Split(n, ' ');
      SeveralPartsIff(n, ' ');
      FirstPart(n, ' ');
      if ' ' in n {
        LastPartNonEmpty(n, ' ');
        var rest := parts[1..];
        assert rest[|rest| - 1] == parts[|parts| - 1];
        WordsKeepLast(rest);
        var w := Words(parts);
        assert w == [parts[0]] + Words(rest);
      } else {
        assert parts == [n];
      }
    }
  }
}
