/** A user's e-mail address: a local part of at most 64 bytes drawn from the
    atext runes of section 3.2.3 of RFC 5322 plus the period, one '@', and a
    domain of at most 255 bytes made of at least two period-separated labels
    of at most 63 bytes, the last of them letters only. Lengths are UTF-8
    byte counts. */
module Email {
  import opened Wrappers
  import opened Text

  const MaxEmailLength: nat := 320
  const MaxLocalPartLength: nat := 64
  const MaxDomainLength: nat := 255
  const MaxDomainLabelLength: nat := 63
  const MinTopLevelDomainLength: nat := 2
  const MinDomainLabels: nat := 2

  const ErrRequired := "email is required"
  const ErrTooLong := "email exceeds maximum length of 320 characters"
  const ErrAtPosition := "invalid email format: missing @ symbol or invalid position"
  const ErrMultipleAt := "invalid email format: multiple @ symbols found"
  const ErrLocalEmpty := "email local part cannot be empty"
  const ErrLocalTooLong := "email local part exceeds maximum length of 64 characters"
  const ErrLocalDots := "email local part cannot contain consecutive dots"
  const ErrLocalDotBoundary := "email local part cannot start or end with a dot"
  const ErrLocalInvalid := "email local part contains invalid characters"
  const ErrDomainEmpty := "email domain cannot be empty"
  const ErrDomainTooLong := "email domain exceeds maximum length of 255 characters"
  const ErrDomainDotBoundary := "email domain cannot start or end with a dot"
  const ErrDomainHyphenBoundary := "email domain cannot start or end with a hyphen"
  const ErrDomainNoDot := "email domain must contain at least one dot"
  const ErrDomainDots := "email domain cannot contain consecutive dots"
  const ErrTwoLabels := "email domain must have at least two labels"
  const ErrLabelEmpty := "email domain label cannot be empty"
  const ErrLabelTooLong := "email domain label exceeds maximum length of 63 characters"
  const ErrTopLevelTooShort := "email top-level domain must be at least 2 characters"
  const ErrTopLevelLetters := "email top-level domain must contain only letters"
  const ErrLabelHyphen := "email domain label cannot start or end with hyphen"
  const ErrLabelInvalid := "email domain label contains invalid characters"

  datatype EmailModel = EmailModel(value: string) {
    function String(): string {
      value
    }
  }

  /** The special runes a local part may hold besides letters and digits. */
  const LocalPartSpecials: set<char> :=
    {'!', '#', '$', '%', '&', '\'', '*', '+', '-', '/', '=', '?', '^', '_', '`', '{', '|', '}', '~', '.'}

  /** `isValidLocalPartChar`. */
  predicate IsValidLocalPartChar(c: char) {
    IsLetter(c) || IsDigit(c) || c in LocalPartSpecials
  }

  /** `isValidDomainChar`. */
  predicate IsValidDomainChar(c: char) {
    IsLetter(c) || IsDigit(c) || c == '-'
  }

  // ---------------------------------------------------------------------
  // The grammar
  // ---------------------------------------------------------------------

  /** No two periods side by side. */
  predicate NoDoubleDot(s: string) {
    NoAdjacent(s, '.')
  }

  predicate LocalPartOK(l: string) {
    && l != []
    && ByteLen(l) <= MaxLocalPartLength
    && l[0] != '.' && l[|l| - 1] != '.'
    && NoDoubleDot(l)
    && (forall i | 0 <= i < |l| :: IsValidLocalPartChar(l[i]))
  }

  predicate RegularLabelOK(l: string) {
    && l != []
    && ByteLen(l) <= MaxDomainLabelLength
    && l[0] != '-' && l[|l| - 1] != '-'
    && (forall i | 0 <= i < |l| :: IsValidDomainChar(l[i]))
  }

  predicate TopLevelLabelOK(l: string) {
    && MinTopLevelDomainLength <= ByteLen(l) <= MaxDomainLabelLength
    && (forall i | 0 <= i < |l| :: IsLetter(l[i]))
  }

  /** At least two labels, the last a top-level label, the others regular. */
  predicate LabelsOK(labels: seq<string>) {
    && |labels| >= MinDomainLabels
    && (forall k | 0 <= k < |labels| - 1 :: RegularLabelOK(labels[k]))
    && TopLevelLabelOK(labels[|labels| - 1])
  }

  /** A domain is judged by its labels alone. */
  predicate DomainOK(d: string) {
    ByteLen(d) <= MaxDomainLength && LabelsOK(Split(d, '.'))
  }

  /** An address: a well-formed local part before its first '@' and a
      well-formed domain after it. */
  predicate WellFormed(value: string) {
    && ByteLen(value) <= MaxEmailLength
    && '@' in value
    && var at := IndexOf(value, '@');
       LocalPartOK(value[..at]) && DomainOK(value[at + 1..])
  }

  // ---------------------------------------------------------------------
  // The validators, in the order the source runs them
  // ---------------------------------------------------------------------

  /** A string is empty exactly when its byte length is zero. */
  lemma ByteLenZero(s: string)
    ensures ByteLen(s) == 0 <==> s == []
  {
    ByteLenBounds(s);
  }

  /** `validateLocalPart`: length, double dots, surrounding dots, then the
      runes. */
  function ValidateLocalPart(l: string): (err: Option<string>)
    ensures err == None <==> LocalPartOK(l)
    ensures err == Some(ErrLocalEmpty) <==> l == []
  {
    ByteLenZero(l);
    ContainsPair(l, '.');
    if ByteLen(l) == 0 then Some(ErrLocalEmpty)
    else if ByteLen(l) > MaxLocalPartLength then Some(ErrLocalTooLong)
    else if Contains(l, "..") then Some(ErrLocalDots)
    else if l[0] == '.' || l[|l| - 1] == '.' then Some(ErrLocalDotBoundary)
    else if !(forall i | 0 <= i < |l| :: IsValidLocalPartChar(l[i])) then Some(ErrLocalInvalid)
    else None
  }

  /** The domain checks of `validateDomainFormat` all pass. */
  predicate FormatOK(d: string)
    requires d != []
  {
    && d[0] != '.' && d[|d| - 1] != '.'
    && d[0] != '-' && d[|d| - 1] != '-'
    && '.' in d
    && NoDoubleDot(d)
  }

  /** `validateDomainFormat`: surrounding dots, surrounding hyphens, at least
      one dot, no double dot. Only called on a non-empty domain. */
  function ValidateDomainFormat(d: string): (err: Option<string>)
    requires d != []
    ensures err == None <==> FormatOK(d)
    ensures d[0] == '.' || d[|d| - 1] == '.' ==> err == Some(ErrDomainDotBoundary)
    ensures d[0] != '.' && d[|d| - 1] != '.' && (d[0] == '-' || d[|d| - 1] == '-') ==>
              err == Some(ErrDomainHyphenBoundary)
    ensures d[0] !in ".-" && d[|d| - 1] !in ".-" && '.' !in d ==> err == Some(ErrDomainNoDot)
    ensures d[0] !in ".-" && d[|d| - 1] !in ".-" && '.' in d && !NoDoubleDot(d) ==> err == Some(ErrDomainDots)
  {
    ContainsPair(d, '.');
    ContainsRune(d, '.');
    if d[0] == '.' || d[|d| - 1] == '.' then Some(ErrDomainDotBoundary)
    else if d[0] == '-' || d[|d| - 1] == '-' then Some(ErrDomainHyphenBoundary)
    else if !Contains(d, ".") then Some(ErrDomainNoDot)
    else if Contains(d, "..") then Some(ErrDomainDots)
    else None
  }

  /** `validateTopLevelDomain`. */
  function ValidateTopLevelDomain(lab: string): (err: Option<string>)
    ensures err == None <==>
              MinTopLevelDomainLength <= ByteLen(lab) && forall i | 0 <= i < |lab| :: IsLetter(lab[i])
  {
    if ByteLen(lab) < MinTopLevelDomainLength then Some(ErrTopLevelTooShort)
    else if !(forall i | 0 <= i < |lab| :: IsLetter(lab[i])) then Some(ErrTopLevelLetters)
    else None
  }

  /** `validateRegularDomainLabel`: only called on a non-empty label. */
  function ValidateRegularDomainLabel(lab: string): (err: Option<string>)
    requires lab != []
    ensures err == None <==>
              lab[0] != '-' && lab[|lab| - 1] != '-'
              && forall i | 0 <= i < |lab| :: IsValidDomainChar(lab[i])
  {
    if lab[0] == '-' || lab[|lab| - 1] == '-' then Some(ErrLabelHyphen)
    else if !(forall i | 0 <= i < |lab| :: IsValidDomainChar(lab[i])) then Some(ErrLabelInvalid)
    else None
  }

  /** `validateDomainLabel`: emptiness and length, then the rules of the
      label's kind. */
  function ValidateDomainLabel(lab: string, isTopLevel: bool): (err: Option<string>)
    ensures err == None <==> if isTopLevel then TopLevelLabelOK(lab) else RegularLabelOK(lab)
    ensures err == Some(ErrLabelEmpty) <==> lab == []
  {
    ByteLenZero(lab);
    if ByteLen(lab) == 0 then Some(ErrLabelEmpty)
    else if ByteLen(lab) > MaxDomainLabelLength then Some(ErrLabelTooLong)
    else if isTopLevel then ValidateTopLevelDomain(lab)
    else ValidateRegularDomainLabel(lab)
  }

  /** The loop of `validateDomainLabels` from label `i` on: the first label
      that fails, the last one judged as the top-level domain. */
  function LabelsError(labels: seq<string>, i: nat): (err: Option<string>)
    requires i <= |labels|
    ensures err == None <==>
              forall k | i <= k < |labels| :: ValidateDomainLabel(labels[k], k == |labels| - 1) == None
    ensures err == Some(ErrLabelEmpty) ==> exists k | i <= k < |labels| :: labels[k] == []
    decreases |labels| - i
  {
    if i == |labels| then None
    else
      match ValidateDomainLabel(labels[i], i == |labels| - 1)
      case Some(e) => Some(e)
      case None => LabelsError(labels, i + 1)
  }

  /** `validateDomainLabels`: split at the periods, require two labels, then
      judge each. */
  function ValidateDomainLabels(d: string): (err: Option<string>)
    ensures err == None <==> LabelsOK(Split(d, '.'))
    ensures err == Some(ErrLabelEmpty) ==> exists k | 0 <= k < |Split(d, '.')| :: Split(d, '.')[k] == []
  {
    var labels := Split(d, '.');
    if |labels| < MinDomainLabels then Some(ErrTwoLabels)
    else
      LabelsVerdict(labels);
      LabelsError(labels, 0)
  }

  /** With two labels or more, every label passing its own check is what
      `LabelsOK` asks. */
  lemma LabelsVerdict(labels: seq<string>)
    requires |labels| >= MinDomainLabels
    ensures (forall k | 0 <= k < |labels| :: ValidateDomainLabel(labels[k], k == |labels| - 1) == None)
            <==> LabelsOK(labels)
  {
  }

  /** Labels that pass imply every check of `validateDomainFormat`: that
      function rejects no domain the label checks would accept. */
  lemma LabelsImplyFormat(d: string)
    requires LabelsOK(Split(d, '.'))
    ensures d != [] && FormatOK(d)
  {
    SplitShape(d, '.');
    JoinedLabels(Split(d, '.'));
  }

  /** Joining well-formed labels with periods passes the format checks and
      ends with a letter. */
  lemma JoinedLabels(labels: seq<string>)
    requires LabelsOK(labels)
    ensures var d := Join(labels, '.'); d != [] && FormatOK(d) && IsLetter(d[|d| - 1])
  {
    LabelsPieces(labels);
    JoinShape(labels, '.');
    LabelRunes(labels[|labels| - 1], true);
  }

  /** A label that passes its check is not empty and holds neither a period
      nor an '@'; a top-level one ends with a letter. */
  lemma LabelRunes(lab: string, isTopLevel: bool)
    requires if isTopLevel then TopLevelLabelOK(lab) else RegularLabelOK(lab)
    ensures lab != [] && '.' !in lab && '@' !in lab
    ensures isTopLevel ==> IsLetter(lab[|lab| - 1])
  {
    ByteLenZero(lab);
    forall i | 0 <= i < |lab| ensures lab[i] != '.' && lab[i] != '@' {
      assert if isTopLevel then IsLetter(lab[i]) else IsValidDomainChar(lab[i]);
    }
  }

  /** Every label of a well-formed list is a non-empty piece free of
      periods and of '@'. */
  lemma LabelsPieces(labels: seq<string>)
    requires LabelsOK(labels)
    ensures forall k | 0 <= k < |labels| :: labels[k] != [] && '.' !in labels[k] && '@' !in labels[k]
  {
    forall k | 0 <= k < |labels| ensures labels[k] != [] && '.' !in labels[k] && '@' !in labels[k] {
      LabelRunes(labels[k], k == |labels| - 1);
    }
  }

  /** A domain that passes the format checks splits into at least two
      non-empty labels: the two-label and empty-label errors of
      `validateDomainLabels` and `validateDomainLabel` can never be raised. */
  lemma FormatImpliesLabels(d: string)
    requires d != [] && FormatOK(d)
    ensures |Split(d, '.')| >= MinDomainLabels
    ensures forall k | 0 <= k < |Split(d, '.')| :: Split(d, '.')[k] != []
  {
    SplitPiecesNonEmpty(d, '.');
  }

  /** Once the domain passes the format checks, the labels decide; and a
      domain whose labels pass always passes the format checks. */
  lemma DomainVerdict(d: string)
    requires d != []
    ensures (ValidateDomainFormat(d) == None && ValidateDomainLabels(d) == None) <==> LabelsOK(Split(d, '.'))
  {
    if LabelsOK(Split(d, '.')) {
      LabelsImplyFormat(d);
    }
  }

  /** The empty domain is a single empty label. */
  lemma EmptyDomainRefused()
    ensures !DomainOK([])
  {
    assert Split([], '.') == [[]];
  }

  /** `validateDomain`: length, format, then labels. */
  function ValidateDomain(d: string): (err: Option<string>)
    ensures err == None <==> DomainOK(d)
    ensures d == [] ==> err == Some(ErrDomainEmpty)
    ensures d != [] && ByteLen(d) > MaxDomainLength ==> err == Some(ErrDomainTooLong)
    ensures d != [] && ByteLen(d) <= MaxDomainLength && ValidateDomainFormat(d) != None ==>
              err == ValidateDomainFormat(d)
    ensures d != [] && ByteLen(d) <= MaxDomainLength && ValidateDomainFormat(d) == None ==>
              err == ValidateDomainLabels(d)
  {
    ByteLenZero(d);
    if ByteLen(d) == 0 then
      EmptyDomainRefused();
      Some(ErrDomainEmpty)
    else if ByteLen(d) > MaxDomainLength then Some(ErrDomainTooLong)
    else
      DomainVerdict(d);
      var format := ValidateDomainFormat(d);
      if format.Some? then format else ValidateDomainLabels(d)
  }

  /** A well-formed domain holds no '@'. */
  lemma DomainHasNoAt(d: string)
    requires DomainOK(d)
    ensures '@' !in d
  {
    var labels := Split(d, '.');
    LabelsPieces(labels);
    SplitShape(d, '.');
    JoinExcludes(labels, '.', '@');
  }

  /** `validateEmail`: byte length, the position of the first '@', a single
      '@', then the local part and the domain on either side of it. The
      position test compares byte offsets in the source; '@' is one byte, so
      it is first or last as a byte exactly when it is first or last as a
      rune. */
  function Validate(value: string): (err: Option<string>)
    ensures err == None <==> WellFormed(value)
    ensures value == [] ==> err == Some(ErrRequired)
    ensures value != [] && ByteLen(value) > MaxEmailLength ==> err == Some(ErrTooLong)
    ensures value != [] && ByteLen(value) <= MaxEmailLength ==>
              var at := IndexOf(value, '@');
              && (at <= 0 || at == |value| - 1 ==> err == Some(ErrAtPosition))
              && (0 < at < |value| - 1 && Count(value, '@') != 1 ==> err == Some(ErrMultipleAt))
              && (0 < at < |value| - 1 && Count(value, '@') == 1 ==>
                    err == if LocalPartOK(value[..at]) then ValidateDomain(value[at + 1..])
                           else ValidateLocalPart(value[..at]))
  {
    ByteLenZero(value);
    if ByteLen(value) == 0 then Some(ErrRequired)
    else if ByteLen(value) > MaxEmailLength then Some(ErrTooLong)
    else
      var at := IndexOf(value, '@');
      if at <= 0 || at == |value| - 1 then
        Some(ErrAtPosition)
      else if Count(value, '@') != 1 then
        assert WellFormed(value) ==> Count(value, '@') == 1 by {
          if WellFormed(value) {
            DomainHasNoAt(value[at + 1..]);
            AtSplit(value, at);
          }
        }
        Some(ErrMultipleAt)
      else
        match ValidateLocalPart(value[..at])
        case Some(e) => Some(e)
        case None => ValidateDomain(value[at + 1..])
  }

  /** Around its first '@', a well-formed address holds no other '@'. */
  lemma AtSplit(value: string, at: int)
    requires '@' in value && at == IndexOf(value, '@')
    requires '@' !in value[at + 1..]
    ensures value == value[..at] + "@" + value[at + 1..]
    ensures Count(value, '@') == 1
  {
    var local, domain := value[..at], value[at + 1..];
    assert value == local + "@" + domain;
    assert multiset(value) == multiset(local) + multiset("@") + multiset(domain);
    assert multiset(local)['@'] == 0 && multiset(domain)['@'] == 0;
  }

  /** Once the '@' is neither first nor last, the local part and the domain
      around it are not empty: the emptiness checks of `validateLocalPart`
      and `validateDomain` can never fail when they are reached. */
  lemma PartsNeverEmpty(value: string)
    requires var at := IndexOf(value, '@'); 0 < at < |value| - 1
    ensures var at := IndexOf(value, '@');
            ValidateLocalPart(value[..at]) != Some(ErrLocalEmpty) && value[at + 1..] != []
  {
  }

  /** `CreateEmailModel`: the stored address is the trimmed input, accepted
      exactly when it is well formed. */
  function Create(value: string): (r: Result<EmailModel>)
    ensures r.Ok? <==> WellFormed(TrimSpace(value))
    ensures r.Ok? ==> r.value.String() == TrimSpace(value)
    ensures r.Err? ==> Some(r.error) == Validate(TrimSpace(value))
    ensures AllSpace(value) ==> r == Err(ErrRequired)
  {
    TrimSpaceEmpty(value);
    var v := TrimSpace(value);
    match Validate(v)
    case Some(e) => Err(e)
    case None => Ok(EmailModel(v))
  }

  /** Building an address again from a stored one gives the same address. */
  lemma CreateIdempotent(value: string)
    requires Create(value).Ok?
    ensures Create(Create(value).value.String()) == Create(value)
  {
    TrimSpaceIdempotent(value);
  }

  /** An accepted address holds exactly one '@', neither first nor last,
      with a well-formed local part before it and a well-formed domain after
      it. */
  lemma Disassemble(value: string)
    requires Create(value).Ok?
    ensures var v := Create(value).value.String();
            var at := IndexOf(v, '@');
            && 0 < at < |v| - 1
            && Count(v, '@') == 1
            && v == v[..at] + "@" + v[at + 1..]
            && LocalPartOK(v[..at]) && DomainOK(v[at + 1..])
  {
    var v := Create(value).value.String();
    var at := IndexOf(v, '@');
    DomainHasNoAt(v[at + 1..]);
    AtSplit(v, at);
    DomainEndsWithLetter(v[at + 1..]);
  }

  /** The first '@' of `local + "@" + rest` is the one after `local` when
      `local` holds none. */
  lemma FirstAt(local: string, rest: string)
    requires '@' !in local
    ensures IndexOf(local + "@" + rest, '@') == |local|
  {
    var v := local + "@" + rest;
    assert v[..|local|] == local;
    IndexOfFirst(v, '@', |local|);
  }

  /** The byte length of an address is that of its parts plus one. */
  lemma AddressByteLen(local: string, domain: string)
    ensures ByteLen(local + "@" + domain) == ByteLen(local) + 1 + ByteLen(domain)
  {
    ByteLenAppend(local, "@");
    ByteLenAppend(local + "@", domain);
    assert ByteLen("@") == 1;
  }

  /** A well-formed local part holds no '@' and starts with no white space. */
  lemma LocalPartShape(local: string)
    requires LocalPartOK(local)
    ensures '@' !in local && !IsSpace(local[0])
  {
    assert IsValidLocalPartChar(local[0]);
    forall i | 0 <= i < |local| ensures local[i] != '@' {
      assert IsValidLocalPartChar(local[i]);
    }
  }

  /** A well-formed domain ends with a letter. */
  lemma DomainEndsWithLetter(domain: string)
    requires DomainOK(domain)
    ensures domain != [] && IsLetter(domain[|domain| - 1])
  {
    SplitShape(domain, '.');
    JoinedLabels(Split(domain, '.'));
  }

  /** A trimmed, well-formed address is stored as it stands. */
  lemma CreateWellFormed(v: string)
    requires Trimmed(v) && WellFormed(v)
    ensures Create(v) == Ok(EmailModel(v))
  {
    TrimmedFixpoint(v);
  }

  /** A local part, an '@' and a domain, each well formed and together
      within the overall length, make a well-formed address. */
  lemma AddressWellFormed(local: string, domain: string)
    requires LocalPartOK(local) && DomainOK(domain)
    requires ByteLen(local) + 1 + ByteLen(domain) <= MaxEmailLength
    ensures WellFormed(local + "@" + domain)
  {
    var v := local + "@" + domain;
    LocalPartShape(local);
    FirstAt(local, domain);
    AddressByteLen(local, domain);
    var at := IndexOf(v, '@');
    assert at == |local| && v[at] == '@';
    assert v[..at] == local;
    assert v[at + 1..] == domain;
  }

  /** Such an address has no surrounding white space. */
  lemma AddressTrimmed(local: string, domain: string)
    requires LocalPartOK(local) && DomainOK(domain)
    ensures Trimmed(local + "@" + domain)
  {
    var v := local + "@" + domain;
    LocalPartShape(local);
    DomainEndsWithLetter(domain);
    assert v[0] == local[0] && v[|v| - 1] == domain[|domain| - 1];
  }

  /** An address is accepted exactly when it is a well-formed local part, an
      '@' and a well-formed domain within the overall length: the grammar
      read in the other direction. */
  lemma Assemble(local: string, domain: string)
    requires LocalPartOK(local) && DomainOK(domain)
    requires ByteLen(local) + 1 + ByteLen(domain) <= MaxEmailLength
    ensures Create(local + "@" + domain) == Ok(EmailModel(local + "@" + domain))
  {
    AddressWellFormed(local, domain);
    AddressTrimmed(local, domain);
    CreateWellFormed(local + "@" + domain);
  }
}
