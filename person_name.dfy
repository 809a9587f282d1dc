/** The name of a person: 2 to 255 runes of letters, digits, spaces,
    hyphens, apostrophes and periods, starting with a letter and ending with
    a letter or digit, with no double space and no more than three
    punctuation marks in a row. */
module PersonName {
  import opened Wrappers
  import opened Text

  const MinLength: nat := 2
  const MaxLength: nat := 255
  const MaxConsecutivePunctuation: nat := 3

  /** The marks the punctuation rule counts. */
  const PunctuationMarks: set<char> := {'-', '\'', '.'}

  const ErrRequired := "name is required"
  const ErrTooShort := "name must be at least 2 characters long"
  const ErrTooLong := "name cannot exceed 255 characters"
  const ErrBadStart := "name must start with a letter"
  const ErrBadEnd := "name must end with a letter or digit"
  const ErrConsecutiveSpaces := "name cannot contain consecutive spaces"
  const ErrInvalidCharacters :=
    "name contains invalid characters (only letters, digits, spaces, hyphens, apostrophes, and periods are allowed)"
  const ErrSpaceBoundary := "name cannot start or end with spaces"
  const ErrPunctuationStart := "name cannot start with punctuation"
  const ErrPunctuationEnd := "name cannot end with punctuation"
  const ErrExcessivePunctuation := "name cannot contain more than 3 consecutive punctuation marks"

  datatype NameModel = NameModel(value: string) {
    function String(): string {
      value
    }
  }

  predicate IsLetterOrDigit(c: char) {
    IsLetter(c) || IsDigit(c)
  }

  /** `isValidNameChar`. */
  predicate IsValidChar(c: char) {
    IsLetter(c) || IsDigit(c) || c == ' ' || c == '-' || c == '\'' || c == '.'
  }

  /** The grammar of an accepted person name, stated as one conjunction. */
  predicate WellFormed(s: string) {
    && MinLength <= |s| <= MaxLength
    && IsLetter(s[0])
    && IsLetterOrDigit(s[|s| - 1])
    && (forall i | 0 <= i < |s| - 1 :: !(s[i] == ' ' && s[i + 1] == ' '))
    && (forall i | 0 <= i < |s| :: IsValidChar(s[i]))
    && !HasRun(s, PunctuationMarks, MaxConsecutivePunctuation + 1)
  }

  /** `validateNameBoundaries`: a leading or trailing space, then a leading
      hyphen or apostrophe, then a trailing one. A period is allowed at
      either end here. */
  function ValidateBoundaries(value: string): (err: Option<string>)
    ensures err == None <==>
              !(HasPrefix(value, " ") || HasSuffix(value, " "))
              && !(HasPrefix(value, "-") || HasPrefix(value, "'"))
              && !(HasSuffix(value, "-") || HasSuffix(value, "'"))
  {
    if HasPrefix(value, " ") || HasSuffix(value, " ") then Some(ErrSpaceBoundary)
    else if HasPrefix(value, "-") || HasPrefix(value, "'") then Some(ErrPunctuationStart)
    else if HasSuffix(value, "-") || HasSuffix(value, "'") then Some(ErrPunctuationEnd)
    else None
  }

  /** What `validatePunctuationRules` decides: an error exactly when more
      than three punctuation marks stand in a row. */
  function PunctuationRules(value: string): (err: Option<string>)
    ensures err != None ==> err == Some(ErrExcessivePunctuation)
  {
    if HasRun(value, PunctuationMarks, MaxConsecutivePunctuation + 1) then Some(ErrExcessivePunctuation)
    else None
  }

  /** `validatePunctuationRules`: one pass over the runes counting
      the current run of punctuation marks, failing as soon as it exceeds
      the maximum. */
  method CheckPunctuationRules(value: string) returns (err: Option<string>)
    ensures err == PunctuationRules(value)
  {
    var punctuationCount := 0;
    var i := 0;
    while i < |value|
      invariant 0 <= i <= |value|
      invariant punctuationCount == TrailingRun(value[..i], PunctuationMarks)
      invariant punctuationCount <= MaxConsecutivePunctuation
      invariant !HasRun(value[..i], PunctuationMarks, MaxConsecutivePunctuation + 1)
    {
      var r := value[i];
      assert value[..i + 1] == value[..i] + [r];
      RunStep(value[..i], r, PunctuationMarks, MaxConsecutivePunctuation + 1);
      if r in PunctuationMarks {
        punctuationCount := punctuationCount + 1;
        if punctuationCount > MaxConsecutivePunctuation {
          assert HasRun(value[..i + 1], PunctuationMarks, MaxConsecutivePunctuation + 1);
          RunsPersist(value, i + 1);
          return Some(ErrExcessivePunctuation);
        }
      } else {
        punctuationCount := 0;
      }
      i := i + 1;
    }
    assert value[..i] == value;
    return None;
  }

  /** A run found in a prefix is a run of the whole string. */
  lemma RunsPersist(value: string, k: nat)
    requires k <= |value|
    requires HasRun(value[..k], PunctuationMarks, MaxConsecutivePunctuation + 1)
    ensures HasRun(value, PunctuationMarks, MaxConsecutivePunctuation + 1)
  {
    var n := MaxConsecutivePunctuation + 1;
    var i :| 0 <= i <= k - n && MarksAt(value[..k], PunctuationMarks, i, n);
    assert MarksAt(value, PunctuationMarks, i, n) by {
      forall j | i <= j < i + n ensures value[j] in PunctuationMarks {
        assert value[j] == value[..k][j];
      }
    }
  }

  /** `validateNameFormat`. */
  function ValidateFormat(value: string): (err: Option<string>)
    ensures err == None <==> ValidateBoundaries(value) == None && PunctuationRules(value) == None
  {
    match ValidateBoundaries(value)
    case Some(e) => Some(e)
    case None => PunctuationRules(value)
  }

  /** `validateName`: the checks in their order in the source, the first
      failure winning. */
  function Validate(value: string): (err: Option<string>)
    ensures err == None <==> WellFormed(value)
    ensures |value| == 0 ==> err == Some(ErrRequired)
    ensures |value| == 1 ==> err == Some(ErrTooShort)
    ensures |value| > MaxLength ==> err == Some(ErrTooLong)
    ensures MinLength <= |value| <= MaxLength ==>
              var first, last := value[0], value[|value| - 1];
              && (!IsLetter(first) ==> err == Some(ErrBadStart))
              && (IsLetter(first) && !IsLetterOrDigit(last) ==> err == Some(ErrBadEnd))
              && (IsLetter(first) && IsLetterOrDigit(last) && Contains(value, "  ") ==>
                    err == Some(ErrConsecutiveSpaces))
              && (IsLetter(first) && IsLetterOrDigit(last) && !Contains(value, "  ")
                  && (exists i | 0 <= i < |value| :: !IsValidChar(value[i])) ==>
                    err == Some(ErrInvalidCharacters))
              && (IsLetter(first) && IsLetterOrDigit(last) && !Contains(value, "  ")
                  && (forall i | 0 <= i < |value| :: IsValidChar(value[i]))
                  && HasRun(value, PunctuationMarks, MaxConsecutivePunctuation + 1) ==>
                    err == Some(ErrExcessivePunctuation))
  {
    ContainsPair(value, ' ');
    if |value| == 0 then Some(ErrRequired)
    else if |value| < MinLength then Some(ErrTooShort)
    else if |value| > MaxLength then Some(ErrTooLong)
    else if !IsLetter(value[0]) then Some(ErrBadStart)
    else if !IsLetterOrDigit(value[|value| - 1]) then Some(ErrBadEnd)
    else if Contains(value, "  ") then Some(ErrConsecutiveSpaces)
    else if !(forall i | 0 <= i < |value| :: IsValidChar(value[i])) then Some(ErrInvalidCharacters)
    else
      BoundariesUnreachable(value);
      ValidateFormat(value)
  }

  /** Once the first rune is a letter and the last a letter or digit, none
      of the errors of `validateNameBoundaries` can be raised. */
  lemma BoundariesUnreachable(value: string)
    requires |value| >= 1
    requires IsLetter(value[0]) && IsLetterOrDigit(value[|value| - 1])
    ensures ValidateBoundaries(value) == None
  {
    var first, last := value[..1], value[|value| - 1..];
    assert first == [value[0]] && last == [value[|value| - 1]];
  }

  /** `CreateNameModel`: the stored name is the trimmed input, accepted
      exactly when it is well formed. */
  function Create(value: string): (r: Result<NameModel>)
    ensures r.Ok? <==> WellFormed(TrimSpace(value))
    ensures r.Ok? ==> r.value.String() == TrimSpace(value)
    ensures r.Err? ==> Some(r.error) == Validate(TrimSpace(value))
  {
    var v := TrimSpace(value);
    match Validate(v)
    case Some(e) => Err(e)
    case None => Ok(NameModel(v))
  }

  /** Building a name again from a stored one gives the same name. */
  lemma CreateIdempotent(value: string)
    requires Create(value).Ok?
    ensures Create(Create(value).value.String()) == Create(value)
  {
    TrimSpaceIdempotent(value);
  }

  /** A name that trimming leaves unchanged is judged as it stands. */
  lemma CreateTrimmed(s: string)
    requires TrimSpace(s) == s
    ensures Create(s) == if WellFormed(s) then Ok(NameModel(s)) else Err(Validate(s).value)
  {
  }

  /** Every rune of `w` is a letter or a digit. */
  predicate LettersOrDigits(w: string) {
    forall i | 0 <= i < |w| :: IsLetterOrDigit(w[i])
  }

  /** What the rune checks see in two words joined by a run of
      punctuation marks: a letter first, a letter or digit last, only valid
      runes, no space, and marks exactly between the words. */
  lemma JoinedWords(w: string, marks: string, v: string)
    requires w != [] && IsLetter(w[0]) && LettersOrDigits(w)
    requires v != [] && LettersOrDigits(v)
    requires forall i | 0 <= i < |marks| :: marks[i] in PunctuationMarks
    ensures var s := w + marks + v;
            && IsLetter(s[0]) && IsLetterOrDigit(s[|s| - 1])
            && forall i | 0 <= i < |s| ::
                 && IsValidChar(s[i]) && s[i] != ' '
                 && (|w| <= i < |w| + |marks| <==> s[i] in PunctuationMarks)
  {
    var s := w + marks + v;
    var k := |w| + |marks|;
    forall i | 0 <= i < |s|
      ensures IsValidChar(s[i]) && s[i] != ' '
      ensures |w| <= i < k <==> s[i] in PunctuationMarks
    {
      if i < |w| {
        assert s[i] == w[i];
      } else if i < k {
        assert s[i] == marks[i - |w|];
      } else {
        assert s[i] == v[i - k];
      }
    }
    assert s[0] == w[0] && s[|s| - 1] == v[|v| - 1];
  }

  /** Two words joined by punctuation marks are left alone by trimming. */
  lemma JoinedTrimmed(w: string, marks: string, v: string)
    requires w != [] && IsLetter(w[0])
    requires v != [] && IsLetterOrDigit(v[|v| - 1])
    ensures TrimSpace(w + marks + v) == w + marks + v
  {
    var s := w + marks + v;
    assert s[0] == w[0] && s[|s| - 1] == v[|v| - 1];
    TrimmedFixpoint(s);
  }

  /** Two words joined by up to three punctuation marks in a row form a
      well-formed name. */
  lemma JoinedWellFormed(w: string, marks: string, v: string)
    requires w != [] && IsLetter(w[0]) && LettersOrDigits(w)
    requires v != [] && LettersOrDigits(v)
    requires forall i | 0 <= i < |marks| :: marks[i] in PunctuationMarks
    requires |marks| <= MaxConsecutivePunctuation && |w| + |marks| + |v| <= MaxLength
    ensures WellFormed(w + marks + v)
  {
    var s := w + marks + v;
    JoinedWords(w, marks, v);
    var n := MaxConsecutivePunctuation + 1;
    forall i | 0 <= i <= |s| - n ensures !MarksAt(s, PunctuationMarks, i, n) {
      if i < |w| {
        assert s[i] !in PunctuationMarks;
      } else {
        assert s[i + n - 1] !in PunctuationMarks;
      }
    }
  }

  /** Two words joined by four or more punctuation marks in a row fail only
      the punctuation rule. */
  lemma JoinedOverlong(w: string, marks: string, v: string)
    requires w != [] && IsLetter(w[0]) && LettersOrDigits(w)
    requires v != [] && LettersOrDigits(v)
    requires forall i | 0 <= i < |marks| :: marks[i] in PunctuationMarks
    requires |marks| > MaxConsecutivePunctuation && |w| + |marks| + |v| <= MaxLength
    ensures Validate(w + marks + v) == Some(ErrExcessivePunctuation)
  {
    var s := w + marks + v;
    JoinedWords(w, marks, v);
    assert MarksAt(s, PunctuationMarks, |w|, MaxConsecutivePunctuation + 1);
    ContainsPair(s, ' ');
    BoundariesUnreachable(s);
  }

  /** Two words joined by up to three punctuation marks in a row are
      accepted. */
  lemma MarksAccepted(w: string, marks: string, v: string)
    requires w != [] && IsLetter(w[0]) && LettersOrDigits(w)
    requires v != [] && LettersOrDigits(v)
    requires forall i | 0 <= i < |marks| :: marks[i] in PunctuationMarks
    requires |marks| <= MaxConsecutivePunctuation && |w| + |marks| + |v| <= MaxLength
    ensures Create(w + marks + v) == Ok(NameModel(w + marks + v))
  {
    JoinedWellFormed(w, marks, v);
    JoinedTrimmed(w, marks, v);
    CreateTrimmed(w + marks + v);
  }

  /** Two words joined by four or more punctuation marks in a row are
      refused with the punctuation error. */
  lemma MarksRefused(w: string, marks: string, v: string)
    requires w != [] && IsLetter(w[0]) && LettersOrDigits(w)
    requires v != [] && LettersOrDigits(v)
    requires forall i | 0 <= i < |marks| :: marks[i] in PunctuationMarks
    requires |marks| > MaxConsecutivePunctuation && |w| + |marks| + |v| <= MaxLength
    ensures Create(w + marks + v) == Err(ErrExcessivePunctuation)
  {
    JoinedOverlong(w, marks, v);
    JoinedTrimmed(w, marks, v);
    CreateTrimmed(w + marks + v);
  }

  /** Through `Create` white space around a name is trimmed away rather
      than refused. */
  lemma PaddingTrimmed(pre: string, s: string, post: string)
    requires AllSpace(pre) && AllSpace(post)
    requires s != [] && Trimmed(s)
    ensures Create(pre + s + post) == Create(s)
  {
    TrimPadded(pre, s, post);
    TrimmedFixpoint(s);
  }

  /** Through `Create` a leading hyphen or apostrophe fails the first-rune
      check, so the punctuation start error is never the answer. */
  lemma LeadingMarkBadStart(c: char, w: string)
    requires c == '-' || c == '\''
    requires w != [] && !IsSpace(w[|w| - 1]) && |w| < MaxLength
    ensures Create([c] + w) == Err(ErrBadStart)
  {
    var s := [c] + w;
    assert s[|s| - 1] == w[|w| - 1];
    TrimmedFixpoint(s);
    CreateTrimmed(s);
  }

  /** Through `Create` a trailing hyphen or apostrophe fails the last-rune
      check, so the punctuation end error is never the answer. */
  lemma TrailingMarkBadEnd(w: string, c: char)
    requires c == '-' || c == '\''
    requires w != [] && IsLetter(w[0]) && |w| < MaxLength
    ensures Create(w + [c]) == Err(ErrBadEnd)
  {
    var s := w + [c];
    assert s[0] == w[0];
    TrimmedFixpoint(s);
    CreateTrimmed(s);
  }

  /** Called on its own, the format check does raise the boundary errors. */
  lemma FormatAloneRaisesBoundaryErrors()
    ensures ValidateFormat(" John") == Some(ErrSpaceBoundary)
    ensures ValidateFormat("-John") == Some(ErrPunctuationStart)
    ensures ValidateFormat("John'") == Some(ErrPunctuationEnd)
  {
    assert HasPrefix(" John", " ");
    assert HasPrefix("-John", "-");
    assert HasSuffix("John'", "'");
  }


}
