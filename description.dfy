/** The optional free-text description of a billing plan: empty, or up to
    1000 printable runes (newline and tab allowed) with no surrounding space
    and never three spaces in a row. */
module Description {
  import opened Wrappers
  import opened Text

  const MaxLength: nat := 1000

  // The length message names 255 although the limit is 1000; it is kept as
  // the source words it.
  const ErrTooLong := "description cannot exceed 255 characters"
  const ErrInvalidCharacters := "description contains invalid characters (only printable characters are allowed)"
  const ErrSpaceBoundary := "description cannot start or end with spaces"
  const ErrTooManySpaces := "description cannot contain more than 2 consecutive spaces"
  const ErrControlCharacters := "description cannot contain control characters"

  datatype DescriptionModel = DescriptionModel(value: string) {
    function String(): string {
      value
    }
  }

  /** `isValidDescriptionChar`: printable, or a newline or a tab. */
  predicate IsValidChar(c: char) {
    IsPrint(c) || c == '\n' || c == '\t'
  }

  /** The control-character scan of `validateDescriptionFormat` finds a rune
      that is a control other than newline and tab. */
  predicate HasForbiddenControl(s: string) {
    exists i | 0 <= i < |s| :: IsControl(s[i]) && s[i] != '\n' && s[i] != '\t'
  }

  /** The descriptions that are accepted as they stand. */
  predicate WellFormed(s: string) {
    s == []
    || (&& |s| <= MaxLength
        && (forall i | 0 <= i < |s| :: IsValidChar(s[i]))
        && !HasPrefix(s, " ") && !HasSuffix(s, " ")
        && !Contains(s, "   "))
  }

  /** `validateDescriptionFormat`: surrounding spaces, then three spaces in a
      row, then control characters. */
  function ValidateFormat(value: string): (err: Option<string>)
    ensures err == None <==>
              !HasPrefix(value, " ") && !HasSuffix(value, " ") && !Contains(value, "   ") && !HasForbiddenControl(value)
  {
    if HasPrefix(value, " ") || HasSuffix(value, " ") then Some(ErrSpaceBoundary)
    else if Contains(value, "   ") then Some(ErrTooManySpaces)
    else if HasForbiddenControl(value) then Some(ErrControlCharacters)
    else None
  }

  /** A description made only of valid runes holds no forbidden control: the
      control scan of the format check can never fail. */
  lemma ControlUnreachable(value: string)
    requires forall i | 0 <= i < |value| :: IsValidChar(value[i])
    ensures !HasForbiddenControl(value)
  {
    forall i | 0 <= i < |value|
      ensures !(IsControl(value[i]) && value[i] != '\n' && value[i] != '\t')
    {
      PrintIsNotControl(value[i]);
    }
  }

  /** `validateDescription`: empty is allowed; then the rune count, the
      character set and the format, the first failure winning. */
  function Validate(value: string): (err: Option<string>)
    ensures err == None <==> WellFormed(value)
    ensures err != Some(ErrControlCharacters)
    ensures !HasPrefix(value, " ") && !HasSuffix(value, " ") ==> err != Some(ErrSpaceBoundary)
    ensures value != [] && |value| > MaxLength ==> err == Some(ErrTooLong)
    ensures value != [] && |value| <= MaxLength && (exists i | 0 <= i < |value| :: !IsValidChar(value[i])) ==>
              err == Some(ErrInvalidCharacters)
    ensures value != [] && |value| <= MaxLength && (forall i | 0 <= i < |value| :: IsValidChar(value[i])) ==>
              err == ValidateFormat(value)
  {
    if value == [] then None
    else if |value| > MaxLength then Some(ErrTooLong)
    else if !(forall i | 0 <= i < |value| :: IsValidChar(value[i])) then Some(ErrInvalidCharacters)
    else
      ControlUnreachable(value);
      ValidateFormat(value)
  }

  /** A trimmed description neither starts nor ends with a space. */
  lemma SpacesTrimmedAway(value: string)
    requires Trimmed(value)
    ensures !HasPrefix(value, " ") && !HasSuffix(value, " ")
  {
    if value != [] {
      assert value[..1] == [value[0]];
      assert value[|value| - 1..] == [value[|value| - 1]];
    }
  }

  /** `CreateDescriptionModel`: the stored description is the trimmed input,
      accepted exactly when it is well formed; the surrounding-space error can
      never come out of it. */
  function Create(value: string): (r: Result<DescriptionModel>)
    ensures r.Ok? <==> WellFormed(TrimSpace(value))
    ensures r.Ok? ==> r.value.String() == TrimSpace(value)
    ensures r.Err? ==> Some(r.error) == Validate(TrimSpace(value))
    ensures r != Err(ErrSpaceBoundary) && r != Err(ErrControlCharacters)
  {
    var v := TrimSpace(value);
    SpacesTrimmedAway(v);
    match Validate(v)
    case Some(e) => Err(e)
    case None => Ok(DescriptionModel(v))
  }

  /** Building a description again from a stored one gives the same one. */
  lemma CreateIdempotent(value: string)
    requires Create(value).Ok?
    ensures Create(Create(value).value.String()) == Create(value)
  {
    TrimSpaceIdempotent(value);
  }

  /** A description of nothing but white space is accepted as empty. */
  lemma BlankIsEmpty(value: string)
    requires AllSpace(value)
    ensures Create(value) == Ok(DescriptionModel(""))
  {
    TrimSpaceEmpty(value);
  }

  /** A trimmed description is judged as it stands. */
  lemma CreateTrimmed(s: string)
    requires Trimmed(s)
    ensures Create(s) == if WellFormed(s) then Ok(DescriptionModel(s)) else Err(Validate(s).value)
  {
    TrimmedFixpoint(s);
  }

  /** A description that is only letters is accepted up to 1000 runes and
      refused with the length error beyond. */
  lemma LengthLimit(s: string)
    requires forall i | 0 <= i < |s| :: IsAsciiLetter(s[i])
    ensures Create(s) == if |s| <= MaxLength then Ok(DescriptionModel(s)) else Err(ErrTooLong)
  {
    assert Trimmed(s);
    assert !Contains(s, "   ") by {
      forall i | 0 <= i <= |s| - 3 ensures !OccursAt(s, "   ", i) {
        assert s[i..i + 3][0] == s[i];
      }
    }
    assert !HasPrefix(s, " ") && !HasSuffix(s, " ") by {
      SpacesTrimmedAway(s);
    }
    CreateTrimmed(s);
  }

  /** Two spaces in a row are accepted. */
  lemma TwoSpacesAccepted()
    ensures Create("Two  spaces") == Ok(DescriptionModel("Two  spaces"))
  {
    var s := "Two  spaces";
    assert WellFormed(s) by {
      assert forall i | 0 <= i < |s| :: IsValidChar(s[i]);
      forall i | 0 <= i <= |s| - 3 ensures !OccursAt(s, "   ", i) {
        assert s[i..i + 3][0] == s[i] && s[i..i + 3][2] == s[i + 2];
      }
      SpacesTrimmedAway(s);
    }
    CreateTrimmed(s);
  }

  /** Three spaces in a row are refused with the spacing error. */
  lemma ThreeSpacesRefused()
    ensures Create("Too   many   spaces") == Err(ErrTooManySpaces)
  {
    var s := "Too   many   spaces";
    assert Validate(s) == Some(ErrTooManySpaces) by {
      assert forall i | 0 <= i < |s| :: IsValidChar(s[i]);
      assert OccursAt(s, "   ", 3);
      SpacesTrimmedAway(s);
    }
    CreateTrimmed(s);
  }

  /** A NUL rune fails the character check, not the control check. */
  lemma NulRefused()
    ensures Create("Invalid\U{0}control") == Err(ErrInvalidCharacters)
  {
    var s := "Invalid\U{0}control";
    assert Validate(s) == Some(ErrInvalidCharacters) by {
      assert !IsValidChar(s[7]);
    }
    CreateTrimmed(s);
  }
}
