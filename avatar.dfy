/** The initials an avatar shows when it has no picture. */
module Avatar {
  import opened Common

  /**
   * `part[0]` interpolated into a template: the first character, or the
   * text "undefined" when the part is empty.
   */
  function FirstOrUndefined(part: string): (r: string)
    ensures |part| > 0 ==> r == [part[0]]
    ensures |part| == 0 ==> r == "undefined"
  {
    if |part| > 0 then [part[0]] else "undefined"
  }

  /** `name.slice(0, 2)`. */
  function FirstTwo(name: string): (r: string)
    ensures |r| <= 2 && |r| <= |name| && r == name[..|r|]
    ensures |name| >= 2 ==> |r| == 2
  {
    if |name| <= 2 then name else name[..2]
  }

  /**
   * getInitials as written: "?" for a missing or empty name; otherwise the
   * trimmed name is split on single spaces and, with two or more pieces,
   * the first characters of the first two pieces are upper-cased; with one
   * piece, the first two characters of the untrimmed name.
   */
  function GetInitials(name: Option<string>): (r: string)
    ensures !Truthy(name) ==> r == "?"
    ensures Truthy(name) && |Split(Trim(name.value), " ")| < 2 ==> r == Upper(FirstTwo(name.value))
    ensures Truthy(name) && |Split(Trim(name.value), " ")| >= 2 ==>
      var parts := Split(Trim(name.value), " ");
      r == Upper(FirstOrUndefined(parts[0]) + FirstOrUndefined(parts[1]))
  {
    if !Truthy(name) then "?"
    else
      var parts := Split(Trim(name.value), " ");
      if |parts| >= 2 then Upper(FirstOrUndefined(parts[0]) + FirstOrUndefined(parts[1]))
      else Upper(FirstTwo(name.value))
  }

  /** A double space between two words leaves an empty second piece, and the initials read "AUNDEFINED". */
  lemma DoubleSpaceInitials(name: string)
    requires name == "Ann  Lee"
    ensures GetInitials(Some(name)) == "AUNDEFINED"
  {
    var parts := Split(Trim(name), " ");
    assert |parts| >= 2 && parts[0] == "Ann" && parts[1] == "" by {
      TrimAnnLee();
      SplitAnnLee();
    }
    InitialsOfPieces(name, parts);
    UpperAundefined();
  }

  lemma InitialsOfPieces(name: string, parts: seq<string>)
    requires |name| > 0 && parts == Split(Trim(name), " ")
    requires |parts| >= 2 && |parts[0]| > 0 && parts[0][0] == 'A' && parts[1] == ""
    ensures GetInitials(Some(name)) == Upper("Aundefined")
  {
    assert FirstOrUndefined(parts[0]) + FirstOrUndefined(parts[1]) == "Aundefined";
  }

  lemma TrimAnnLee()
    ensures Trim("Ann  Lee") == "Ann  Lee"
  {
    var name := "Ann  Lee";
    assert !IsSpace(name[0]) && !IsSpace(name[|name| - 1]);
    TrimOfTrimmed(name);
  }

  lemma UpperAundefined()
    ensures Upper("Aundefined") == "AUNDEFINED"
  {
    var u := Upper("Aundefined");
    assert forall i :: 0 <= i < 10 ==> u[i] == "AUNDEFINED"[i];
  }

  lemma SplitAnnLee()
    ensures var parts := Split("Ann  Lee", " "); |parts| >= 2 && parts[0] == "Ann" && parts[1] == ""
  {
    var name := "Ann  Lee";
    IndexOfAnnLee();
    assert name[4..] == " Lee";
    SplitSpaceLee();
    assert Split(name, " ") == [name[..3]] + Split(" Lee", " ");
    assert name[..3] == "Ann";
  }

  lemma IndexOfAnnLee()
    ensures IndexOf("Ann  Lee", " ", 0) == Some(3)
  {
    var name := "Ann  Lee";
    assert IndexOf(name, " ", 3) == Some(3) by { assert name[3..4] == " "; }
    assert IndexOf(name, " ", 2) == IndexOf(name, " ", 3) by { assert name[2..3][0] == 'n'; }
    assert IndexOf(name, " ", 1) == IndexOf(name, " ", 2) by { assert name[1..2][0] == 'n'; }
    assert IndexOf(name, " ", 0) == IndexOf(name, " ", 1) by { assert name[0..1][0] == 'A'; }
  }

  lemma SplitSpaceLee()
    ensures Split(" Lee", " ")[0] == ""
  {
    var rest := " Lee";
    assert IndexOf(rest, " ", 0) == Some(0) by { assert rest[0..1] == " "; }
  }

  /** The non-empty pieces of a split: the words of a name however many spaces separate them. */
  function Words(parts: seq<string>): (r: seq<string>)
    ensures |r| <= |parts|
    ensures forall i :: 0 <= i < |r| ==> |r[i]| > 0
    ensures forall i :: 0 <= i < |r| ==> r[i] in parts
  {
    if |parts| == 0 then []
    else if |parts[0]| == 0 then Words(parts[1..])
    else [parts[0]] + Words(parts[1..])
  }

  /** `c` is an uppercased character of `name`. */
  ghost predicate UpperOf(c: char, name: string)
  {
    exists j :: 0 <= j < |name| && c == UpperChar(name[j])
  }

  /** Every character of `r` is an uppercased character of `name`. */
  ghost predicate FromName(r: string, name: string)
  {
    forall i :: 0 <= i < |r| ==> UpperOf(r[i], name)
  }

  /**
   * getInitials as intended: the first letters of the first two words,
   * empty pieces between repeated spaces skipped; otherwise as written.
   */
  function GetInitialsCorrected(name: Option<string>): (r: string)
    ensures !Truthy(name) ==> r == "?"
    ensures Truthy(name) ==> 1 <= |r| <= 2
    ensures Truthy(name) ==> FromName(r, name.value)
  {
    if !Truthy(name) then "?"
    else
      var trimmed := Trim(name.value);
      var words := Words(Split(trimmed, " "));
      if |words| >= 2 then
        InitialsFromWords(trimmed, name.value, words[0], words[1]);
        Upper([words[0][0], words[1][0]])
      else
        FirstTwoFromName(name.value);
        Upper(FirstTwo(name.value))
  }

  lemma InitialsFromWords(trimmed: string, name: string, w0: string, w1: string)
    requires trimmed == Trim(name)
    requires w0 in Split(trimmed, " ") && |w0| > 0
    requires w1 in Split(trimmed, " ") && |w1| > 0
    ensures FromName(Upper([w0[0], w1[0]]), name)
  {
    WordCharInName(trimmed, name, w0);
    WordCharInName(trimmed, name, w1);
    var j0 :| 0 <= j0 < |name| && w0[0] == name[j0];
    var j1 :| 0 <= j1 < |name| && w1[0] == name[j1];
    var r := Upper([w0[0], w1[0]]);
    forall i | 0 <= i < |r|
      ensures UpperOf(r[i], name)
    {
      if i == 0 {
        assert r[i] == UpperChar(name[j0]);
      } else {
        assert r[i] == UpperChar(name[j1]);
      }
    }
  }

  lemma FirstTwoFromName(name: string)
    ensures FromName(Upper(FirstTwo(name)), name)
  {
    var f := FirstTwo(name);
    var r := Upper(f);
    forall i | 0 <= i < |r|
      ensures UpperOf(r[i], name)
    {
      assert f[i] == name[i];
      assert r[i] == UpperChar(name[i]);
    }
  }

  /** The first character of a word of the trimmed name is a character of the name. */
  lemma WordCharInName(trimmed: string, name: string, word: string)
    requires trimmed == Trim(name)
    requires word in Split(trimmed, " ") && |word| > 0
    ensures exists j :: 0 <= j < |name| && word[0] == name[j]
  {
    PieceCharsIn(trimmed, " ", word);
    var k :| 0 <= k < |trimmed| && word[0] == trimmed[k];
    TrimChars(name, k);
  }

  /** Every character of a piece of a split is a character of the string. */
  lemma {:induction false} PieceCharsIn(s: string, sep: string, piece: string)
    requires |sep| > 0 && piece in Split(s, sep) && |piece| > 0
    ensures exists k :: 0 <= k < |s| && piece[0] == s[k]
    decreases |s|
  {
    match IndexOf(s, sep, 0)
    case None =>
      assert piece == s;
      assert piece[0] == s[0];
    case Some(i) =>
      var rest := s[i + |sep|..];
      if piece == s[..i] {
        assert piece[0] == s[0];
      } else {
        assert piece in Split(rest, sep);
        PieceCharsIn(rest, sep, piece);
        var k :| 0 <= k < |rest| && piece[0] == rest[k];
        assert piece[0] == s[i + |sep| + k];
      }
  }

  /** A character of the trimmed name is a character of the name. */
  lemma TrimChars(name: string, k: nat)
    requires k < |Trim(name)|
    ensures exists j :: 0 <= j < |name| && Trim(name)[k] == name[j]
  {
    var t := TrimStart(name);
    assert Trim(name)[k] == t[k] == name[|name| - |t| + k];
  }

  /** When the first two pieces are non-empty (single spaces), the two definitions agree. */
  lemma AgreeOnSingleSpaces(name: string)
    requires |name| > 0
    requires var parts := Split(Trim(name), " "); |parts| >= 2 ==> |parts[0]| > 0 && |parts[1]| > 0
    ensures GetInitials(Some(name)) == GetInitialsCorrected(Some(name))
  {
    var parts := Split(Trim(name), " ");
    if |parts| >= 2 {
      WordsOfNonEmptyHead(parts);
    } else {
      assert |Words(parts)| <= 1;
    }
  }

  /** Two non-empty leading pieces are the first two words. */
  lemma WordsOfNonEmptyHead(parts: seq<string>)
    requires |parts| >= 2 && |parts[0]| > 0 && |parts[1]| > 0
    ensures |Words(parts)| >= 2 && Words(parts)[0] == parts[0] && Words(parts)[1] == parts[1]
  {
    assert Words(parts) == [parts[0]] + Words(parts[1..]);
    assert parts[1..][0] == parts[1];
    assert Words(parts[1..]) == [parts[1]] + Words(parts[2..]);
  }
}
