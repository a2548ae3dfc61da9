/**
 The closed taxonomy of step kinds (`SBASurveyItemType`): a raw step-type token from the
 configuration is classified, first match wins, into one variant, with `custom` as the
 catch-all that keeps the original token.
 */
module SurveyItemType {
  import opened Wrappers

  // ---------------------------------------------------------------------------
  // Subtype vocabularies and their raw values
  // ---------------------------------------------------------------------------

  datatype InstructionSubtype = Instruction | Completion

  datatype FormSubtype =
    | Compound | Toggle | Boolean | SingleChoice | MultipleChoice | Text | MultipleLineText
    | Date | DateTime | Time | Duration | Integer | Decimal | Scale | ContinuousScale | TimingRange

  datatype ConsentSubtype = SharingOptions | Review | Visual

  datatype AccountSubtype = Registration | Login | EmailVerification | ExternalID | Permissions | Profile

  /** The configuration keys of the two passcode lengths (`PasscodeSubtype`). */
  datatype PasscodeSubtype = Type6Digit | Type4Digit

  /** ResearchKit's `ORKPasscodeType`, the payload of the `passcode` variant. */
  datatype PasscodeType = PasscodeType6Digit | PasscodeType4Digit

  function InstructionRaw(t: InstructionSubtype): string {
    match t
    case Instruction => "instruction"
    case Completion => "completion"
  }

  function FormRaw(t: FormSubtype): string {
    match t
    case Compound => "compound"
    case Toggle => "toggle"
    case Boolean => "boolean"
    case SingleChoice => "singleChoiceText"
    case MultipleChoice => "multipleChoiceText"
    case Text => "textfield"
    case MultipleLineText => "multilineText"
    case Date => "datePicker"
    case DateTime => "timeAndDatePicker"
    case Time => "timePicker"
    case Duration => "timeInterval"
    case Integer => "numericInteger"
    case Decimal => "numericDecimal"
    case Scale => "scaleInteger"
    case ContinuousScale => "continuousScale"
    case TimingRange => "timingRange"
  }

  function ConsentRaw(t: ConsentSubtype): string {
    match t
    case SharingOptions => "consentSharingOptions"
    case Review => "consentReview"
    case Visual => "consentVisual"
  }

  function AccountRaw(t: AccountSubtype): string {
    match t
    case Registration => "registration"
    case Login => "login"
    case EmailVerification => "emailVerification"
    case ExternalID => "externalID"
    case Permissions => "permissions"
    case Profile => "profile"
  }

  function PasscodeRaw(t: PasscodeSubtype): string {
    match t
    case Type6Digit => "passcodeType6Digit"
    case Type4Digit => "passcodeType4Digit"
  }

  /** `InstructionSubtype(rawValue:)` */
  function ParseInstruction(s: string): Option<InstructionSubtype> {
    if s == "instruction" then Some(InstructionSubtype.Instruction)
    else if s == "completion" then Some(Completion)
    else None
  }

  /** `FormSubtype(rawValue:)` */
  function ParseForm(s: string): Option<FormSubtype> {
    if s == "compound" then Some(Compound)
    else if s == "toggle" then Some(Toggle)
    else if s == "boolean" then Some(Boolean)
    else if s == "singleChoiceText" then Some(SingleChoice)
    else if s == "multipleChoiceText" then Some(MultipleChoice)
    else if s == "textfield" then Some(Text)
    else if s == "multilineText" then Some(MultipleLineText)
    else if s == "datePicker" then Some(Date)
    else if s == "timeAndDatePicker" then Some(DateTime)
    else if s == "timePicker" then Some(Time)
    else if s == "timeInterval" then Some(Duration)
    else if s == "numericInteger" then Some(Integer)
    else if s == "numericDecimal" then Some(Decimal)
    else if s == "scaleInteger" then Some(Scale)
    else if s == "continuousScale" then Some(ContinuousScale)
    else if s == "timingRange" then Some(TimingRange)
    else None
  }

  /** `ConsentSubtype(rawValue:)` */
  function ParseConsent(s: string): Option<ConsentSubtype> {
    if s == "consentSharingOptions" then Some(SharingOptions)
    else if s == "consentReview" then Some(Review)
    else if s == "consentVisual" then Some(Visual)
    else None
  }

  /** `AccountSubtype(rawValue:)` */
  function ParseAccount(s: string): Option<AccountSubtype> {
    if s == "registration" then Some(Registration)
    else if s == "login" then Some(Login)
    else if s == "emailVerification" then Some(EmailVerification)
    else if s == "externalID" then Some(ExternalID)
    else if s == "permissions" then Some(Permissions)
    else if s == "profile" then Some(Profile)
    else None
  }

  /** `PasscodeSubtype(rawValue:)` */
  function ParsePasscodeSubtype(s: string): Option<PasscodeSubtype> {
    if s == "passcodeType6Digit" then Some(Type6Digit)
    else if s == "passcodeType4Digit" then Some(Type4Digit)
    else None
  }

  /** `ORKPasscodeType.init?(key:)`: a passcode key gives the passcode length it names. */
  function PasscodeTypeFromKey(key: string): (r: Option<PasscodeType>)
    ensures r == Some(PasscodeType6Digit) <==> key == "passcodeType6Digit"
    ensures r == Some(PasscodeType4Digit) <==> key == "passcodeType4Digit"
  {
    match ParsePasscodeSubtype(key)
    case None => None
    case Some(Type6Digit) => Some(PasscodeType6Digit)
    case Some(Type4Digit) => Some(PasscodeType4Digit)
  }

  /** The key that `PasscodeTypeFromKey` maps to a passcode type. */
  function PasscodeKey(t: PasscodeType): string {
    match t
    case PasscodeType6Digit => PasscodeRaw(Type6Digit)
    case PasscodeType4Digit => PasscodeRaw(Type4Digit)
  }

  // ---------------------------------------------------------------------------
  // Raw-value round trips
  // ---------------------------------------------------------------------------

  lemma InstructionRoundTrip(t: InstructionSubtype, s: string)
    ensures ParseInstruction(InstructionRaw(t)) == Some(t)
    ensures ParseInstruction(s).Some? ==> InstructionRaw(ParseInstruction(s).value) == s
  {
    match t
    case Instruction =>
    case Completion =>
  }

  lemma FormRoundTrip(t: FormSubtype, s: string)
    ensures ParseForm(FormRaw(t)) == Some(t)
    ensures ParseForm(s).Some? ==> FormRaw(ParseForm(s).value) == s
  {
    FormRawParses(t);
    FormParsedIsRaw(s);
  }

  lemma FormRawParses(t: FormSubtype)
    ensures ParseForm(FormRaw(t)) == Some(t)
  {
    if t.Compound? || t.Toggle? || t.Boolean? || t.SingleChoice?
       || t.MultipleChoice? || t.Text? || t.MultipleLineText? || t.Date? {
      EarlyFormRawParses(t);
    } else {
      LateFormRawParses(t);
    }
  }

  lemma EarlyFormRawParses(t: FormSubtype)
    requires t.Compound? || t.Toggle? || t.Boolean? || t.SingleChoice?
             || t.MultipleChoice? || t.Text? || t.MultipleLineText? || t.Date?
    ensures ParseForm(FormRaw(t)) == Some(t)
  {
    if t.Compound? {
    } else if t.Toggle? {
    } else if t.Boolean? {
    } else if t.SingleChoice? {
    } else if t.MultipleChoice? {
    } else if t.Text? {
    } else if t.MultipleLineText? {
    }
  }

  lemma LateFormRawParses(t: FormSubtype)
    requires !(t.Compound? || t.Toggle? || t.Boolean? || t.SingleChoice?
               || t.MultipleChoice? || t.Text? || t.MultipleLineText? || t.Date?)
    ensures ParseForm(FormRaw(t)) == Some(t)
  {
    if t.DateTime? {
    } else if t.Time? {
    } else if t.Duration? {
    } else if t.Integer? {
    } else if t.Decimal? {
    } else if t.Scale? {
    } else if t.ContinuousScale? {
    }
  }

  lemma FormParsedIsRaw(s: string)
    ensures ParseForm(s).Some? ==> FormRaw(ParseForm(s).value) == s
    ensures ParseForm(s).Some? <==> s in FormKeys
  {
    if s == "compound" {
    } else if s == "toggle" {
    } else if s == "boolean" {
    } else if s == "singleChoiceText" {
    } else if s == "multipleChoiceText" {
    } else if s == "textfield" {
    } else if s == "multilineText" {
    } else if s == "datePicker" {
    } else if s == "timeAndDatePicker" {
    } else if s == "timePicker" {
    } else if s == "timeInterval" {
    } else if s == "numericInteger" {
    } else if s == "numericDecimal" {
    } else if s == "scaleInteger" {
    } else if s == "continuousScale" {
    } else if s == "timingRange" {
    }
  }

  lemma ConsentRoundTrip(t: ConsentSubtype, s: string)
    ensures ParseConsent(ConsentRaw(t)) == Some(t)
    ensures ParseConsent(s).Some? ==> ConsentRaw(ParseConsent(s).value) == s
  {
    match t
    case SharingOptions =>
    case Review =>
    case Visual =>
  }

  lemma AccountRoundTrip(t: AccountSubtype, s: string)
    ensures ParseAccount(AccountRaw(t)) == Some(t)
    ensures ParseAccount(s).Some? ==> AccountRaw(ParseAccount(s).value) == s
  {
    match t
    case Registration =>
    case Login =>
    case EmailVerification =>
    case ExternalID =>
    case Permissions =>
    case Profile =>
  }

  lemma PasscodeRoundTrip(t: PasscodeType, key: string)
    ensures PasscodeTypeFromKey(PasscodeKey(t)) == Some(t)
    ensures PasscodeTypeFromKey(key).Some? ==> PasscodeKey(PasscodeTypeFromKey(key).value) == key
  {
  }

  // ---------------------------------------------------------------------------
  // The step kind and its classifier
  // ---------------------------------------------------------------------------

  datatype ItemType =
    | Custom(token: Option<string>)
    | Subtask
    | Instruction(instruction: InstructionSubtype)
    | Form(form: FormSubtype)
    | Consent(consent: ConsentSubtype)
    | DataGroups(dataGroups: FormSubtype)
    | Account(account: AccountSubtype)
    | Passcode(passcode: PasscodeType)

  const SubtaskKey: string := "subtask"
  const DataGroupsIdentifier: string := "dataGroups"

  predicate HasPrefix(s: string, prefix: string) {
    |prefix| <= |s| && s[..|prefix|] == prefix
  }

  /**
   `String.parseSuffix(prefix:)`: the text after `prefix`, when `s` starts with it.
   (Whether an empty rest is returned as "" or as nil does not matter to the classifier:
   neither is a form subtype.)
   */
  function ParseSuffix(s: string, prefix: string): (r: Option<string>)
    ensures r.Some? ==> s == prefix + r.value
  {
    if HasPrefix(s, prefix) then Some(s[|prefix|..]) else None
  }

  /** The form subtype named after "dataGroups.", defaulting to multiple choice. */
  function DataGroupsSubtype(s: string): FormSubtype {
    match ParseSuffix(s, DataGroupsIdentifier + ".")
    case None => MultipleChoice
    case Some(rest) => ParseForm(rest).GetOr(MultipleChoice)
  }

  /** `SBASurveyItemType.init(rawValue:)` */
  function Classify(rawValue: Option<string>): (r: ItemType)
    ensures rawValue.None? <==> r == Custom(None)
    ensures r.Custom? && rawValue.Some? ==> r == Custom(rawValue)
    ensures r.Subtask? ==> rawValue == Some(SubtaskKey)
    ensures r.DataGroups? ==> rawValue.Some? && HasPrefix(rawValue.value, DataGroupsIdentifier)
  {
    match rawValue
    case None => Custom(None)
    case Some(s) =>
      if ParseInstruction(s).Some? then ItemType.Instruction(ParseInstruction(s).value)
      else if ParseForm(s).Some? then Form(ParseForm(s).value)
      else if HasPrefix(s, DataGroupsIdentifier) then DataGroups(DataGroupsSubtype(s))
      else if ParseConsent(s).Some? then Consent(ParseConsent(s).value)
      else if ParseAccount(s).Some? then Account(ParseAccount(s).value)
      else if PasscodeTypeFromKey(s).Some? then Passcode(PasscodeTypeFromKey(s).value)
      else if s == SubtaskKey then Subtask
      else Custom(Some(s))
  }

  /** `formSubtype()`: the payload of `form` and of `dataGroups`. */
  function FormSubtypeOf(t: ItemType): (r: Option<FormSubtype>)
    ensures r.Some? <==> t.Form? || t.DataGroups?
    ensures t.Form? ==> r == Some(t.form)
    ensures t.DataGroups? ==> r == Some(t.dataGroups)
  {
    match t
    case Form(f) => Some(f)
    case DataGroups(f) => Some(f)
    case _ => None
  }

  /** `consentSubtype()` */
  function ConsentSubtypeOf(t: ItemType): (r: Option<ConsentSubtype>)
    ensures r.Some? <==> t.Consent?
    ensures t.Consent? ==> r == Some(t.consent)
  {
    if t.Consent? then Some(t.consent) else None
  }

  /** `accountSubtype()` */
  function AccountSubtypeOf(t: ItemType): (r: Option<AccountSubtype>)
    ensures r.Some? <==> t.Account?
    ensures t.Account? ==> r == Some(t.account)
  {
    if t.Account? then Some(t.account) else None
  }

  /** `isNilType()` */
  function IsNilType(t: ItemType): (r: bool)
    ensures r <==> t == Custom(None)
  {
    match t
    case Custom(token) => token.None?
    case _ => false
  }

  /** `customTypeIdentifier`: the token carried by `custom`, nil for every other variant. */
  function CustomTypeIdentifier(t: ItemType): (r: Option<string>)
    ensures !t.Custom? ==> r.None?
    ensures t.Custom? ==> r == t.token
  {
    if t.Custom? then t.token else None
  }

  /**
   The hand-written `==` on `SBASurveyItemType`. It has no arm for `dataGroups`,
   so two `dataGroups` values fall to `default` and compare unequal.
   */
  function Equals(lhs: ItemType, rhs: ItemType): (r: bool)
    ensures r ==> lhs == rhs
    ensures r ==> !lhs.DataGroups? && !rhs.DataGroups?
  {
    match (lhs, rhs)
    case (Instruction(l), Instruction(r)) => l == r
    case (Form(l), Form(r)) => l == r
    case (Consent(l), Consent(r)) => l == r
    case (Account(l), Account(r)) => l == r
    case (Passcode(l), Passcode(r)) => l == r
    case (Subtask, Subtask) => true
    case (Custom(l), Custom(r)) => l == r
    case _ => false
  }

  /** `usesPlaceholderText`, written with the `==` above. */
  function UsesPlaceholderText(t: ItemType): (r: bool)
    ensures r <==> t == Form(Text) || t == Form(MultipleLineText)
  {
    EqualsIsStructuralExceptDataGroups(t, Form(Text));
    EqualsIsStructuralExceptDataGroups(t, Form(MultipleLineText));
    Equals(t, Form(Text)) || Equals(t, Form(MultipleLineText))
  }

  // ---------------------------------------------------------------------------
  // Properties of the classifier and of `==`
  // ---------------------------------------------------------------------------

  /** `==` is structural equality, except that it never holds between `dataGroups` values. */
  lemma EqualsIsStructuralExceptDataGroups(lhs: ItemType, rhs: ItemType)
    ensures Equals(lhs, rhs) <==> lhs == rhs && !lhs.DataGroups?
  {
    match lhs
    case Custom(_) =>
    case Subtask =>
    case Instruction(_) =>
    case Form(_) =>
    case Consent(_) =>
    case DataGroups(_) =>
    case Account(_) =>
    case Passcode(_) =>
  }

  /** Hence `==` is not reflexive: a `dataGroups` value is not equal to itself. */
  lemma DataGroupsNeverEqual(f: FormSubtype)
    ensures !Equals(DataGroups(f), DataGroups(f))
  {
    EqualsIsStructuralExceptDataGroups(DataGroups(f), DataGroups(f));
  }

  /** Every key of the closed vocabularies, written out independently of the parsers. */
  const InstructionKeys: set<string> := {"instruction", "completion"}
  const FormKeys: set<string> := {
    "compound", "toggle", "boolean", "singleChoiceText", "multipleChoiceText", "textfield",
    "multilineText", "datePicker", "timeAndDatePicker", "timePicker", "timeInterval",
    "numericInteger", "numericDecimal", "scaleInteger", "continuousScale", "timingRange"
  }
  const ConsentKeys: set<string> := {"consentSharingOptions", "consentReview", "consentVisual"}
  const AccountKeys: set<string> := {"registration", "login", "emailVerification", "externalID", "permissions", "profile"}
  const PasscodeKeys: set<string> := {"passcodeType6Digit", "passcodeType4Digit"}
  const RecognizedKeys: set<string> :=
    InstructionKeys + FormKeys + ConsentKeys + AccountKeys + PasscodeKeys + {SubtaskKey}

  lemma InstructionKeysParse(s: string)
    ensures ParseInstruction(s).Some? <==> s in InstructionKeys
  {
  }

  lemma ConsentKeysParse(s: string)
    ensures ParseConsent(s).Some? <==> s in ConsentKeys
  {
  }

  lemma AccountKeysParse(s: string)
    ensures ParseAccount(s).Some? <==> s in AccountKeys
  {
  }

  lemma PasscodeKeysParse(s: string)
    ensures PasscodeTypeFromKey(s).Some? <==> s in PasscodeKeys
  {
  }

  /** A nil token is the nil custom type, and no present token is. */
  lemma NilTokenIsNilType(rawValue: Option<string>)
    ensures IsNilType(Classify(rawValue)) <==> rawValue.None?
  {
  }

  /**
   The universal fallback: a token becomes `custom` carrying that very token exactly when it
   is none of the known keys and does not start with "dataGroups".
   */
  lemma CustomFallback(s: string)
    ensures Classify(Some(s)).Custom? <==> s !in RecognizedKeys && !HasPrefix(s, DataGroupsIdentifier)
    ensures Classify(Some(s)).Custom? ==> Classify(Some(s)) == Custom(Some(s))
  {
    InstructionKeysParse(s);
    FormParsedIsRaw(s);
    ConsentKeysParse(s);
    AccountKeysParse(s);
    PasscodeKeysParse(s);
  }

  /**
   Any token starting with "dataGroups" is a `dataGroups` step; its subtype is the form subtype
   named after "dataGroups.", or multiple choice when the rest names none.
   */
  lemma DataGroupsPrefix(s: string)
    requires HasPrefix(s, DataGroupsIdentifier)
    ensures Classify(Some(s)) == DataGroups(DataGroupsSubtype(s))
    ensures forall f :: s == DataGroupsIdentifier + "." + FormRaw(f) ==> DataGroupsSubtype(s) == f
    ensures DataGroupsSubtype(s) == MultipleChoice
            || s == DataGroupsIdentifier + "." + FormRaw(DataGroupsSubtype(s))
  {
    NotAKeyWithDataGroupsPrefix(s);
    forall f | s == DataGroupsIdentifier + "." + FormRaw(f)
      ensures DataGroupsSubtype(s) == f
    {
      assert s[|DataGroupsIdentifier + "."|..] == FormRaw(f);
      FormRoundTrip(f, "");
    }
    var suffix := ParseSuffix(s, DataGroupsIdentifier + ".");
    if suffix.Some? {
      FormRoundTrip(MultipleChoice, suffix.value);
    }
  }

  /** A token that starts with "dataGroups" starts with the letters d, a, t, a, G. */
  lemma DataGroupsLetters(s: string)
    ensures HasPrefix(s, DataGroupsIdentifier) ==>
              s[0] == 'd' && s[1] == 'a' && s[2] == 't' && s[3] == 'a' && s[4] == 'G'
  {
    if HasPrefix(s, DataGroupsIdentifier) {
      assert s[..10][0] == 'd' && s[..10][3] == 'a' && s[..10][4] == 'G';
    }
  }

  /** No instruction or form key starts with "dataGroups", so the prefix test is reached. */
  lemma NotAKeyWithDataGroupsPrefix(s: string)
    requires HasPrefix(s, DataGroupsIdentifier)
    ensures ParseInstruction(s).None? && ParseForm(s).None?
  {
    DataGroupsLetters(s);
  }

  /** The canonical token of each kind; `dataGroups` is written with its subtype after a dot. */
  function Token(t: ItemType): Option<string> {
    match t
    case Custom(token) => token
    case Subtask => Some(SubtaskKey)
    case Instruction(i) => Some(InstructionRaw(i))
    case Form(f) => Some(FormRaw(f))
    case Consent(c) => Some(ConsentRaw(c))
    case DataGroups(f) => Some(DataGroupsIdentifier + "." + FormRaw(f))
    case Account(a) => Some(AccountRaw(a))
    case Passcode(p) => Some(PasscodeKey(p))
  }

  /** A kind's token classifies back to that kind (a custom token must not be a known one). */
  lemma ClassifyToken(t: ItemType)
    requires t.Custom? && t.token.Some? ==>
               t.token.value !in RecognizedKeys && !HasPrefix(t.token.value, DataGroupsIdentifier)
    ensures Classify(Token(t)) == t
  {
    match t
    case Custom(token) =>
      if token.Some? {
        CustomFallback(token.value);
      }
    case Subtask =>
    case Instruction(i) =>
      InstructionRoundTrip(i, "");
    case Form(f) =>
      ClassifyFormToken(f);
    case Consent(c) =>
      ClassifyConsentToken(c);
    case DataGroups(f) =>
      ClassifyDataGroupsToken(f);
    case Account(a) =>
      ClassifyAccountToken(a);
    case Passcode(p) =>
      ClassifyPasscodeToken(p);
  }

  lemma ClassifyDataGroupsToken(f: FormSubtype)
    ensures Classify(Some(DataGroupsIdentifier + "." + FormRaw(f))) == DataGroups(f)
  {
    var s := DataGroupsIdentifier + "." + FormRaw(f);
    assert s[..|DataGroupsIdentifier|] == DataGroupsIdentifier;
    DataGroupsPrefix(s);
  }

  lemma ClassifyFormToken(f: FormSubtype)
    ensures Classify(Some(FormRaw(f))) == Form(f)
  {
    InstructionRoundTrip(InstructionSubtype.Instruction, FormRaw(f));
    FormRoundTrip(f, "");
  }

  lemma ClassifyConsentToken(c: ConsentSubtype)
    ensures Classify(Some(ConsentRaw(c))) == Consent(c)
  {
    ConsentRoundTrip(c, "");
    InstructionKeysParse(ConsentRaw(c));
    FormParsedIsRaw(ConsentRaw(c));
    DataGroupsLetters(ConsentRaw(c));
  }

  lemma ClassifyAccountToken(a: AccountSubtype)
    ensures Classify(Some(AccountRaw(a))) == Account(a)
  {
    AccountRoundTrip(a, "");
    InstructionKeysParse(AccountRaw(a));
    FormParsedIsRaw(AccountRaw(a));
    ConsentKeysParse(AccountRaw(a));
    DataGroupsLetters(AccountRaw(a));
  }

  lemma ClassifyPasscodeToken(p: PasscodeType)
    ensures Classify(Some(PasscodeKey(p))) == Passcode(p)
  {
    PasscodeRoundTrip(p, "");
    InstructionKeysParse(PasscodeKey(p));
    FormParsedIsRaw(PasscodeKey(p));
    ConsentKeysParse(PasscodeKey(p));
    AccountKeysParse(PasscodeKey(p));
    DataGroupsLetters(PasscodeKey(p));
  }

  /** Conversely, re-deriving the token from the kind gives back the classified token. */
  lemma TokenOfClassify(s: string)
    requires !Classify(Some(s)).DataGroups?
    ensures Token(Classify(Some(s))) == Some(s)
  {
    InstructionRoundTrip(InstructionSubtype.Instruction, s);
    FormRoundTrip(Compound, s);
    ConsentRoundTrip(SharingOptions, s);
    AccountRoundTrip(Registration, s);
    PasscodeRoundTrip(PasscodeType6Digit, s);
  }

  /** The two keys used by the configurations in the tests. */
  lemma ExampleTokens()
    ensures Classify(Some("singleChoiceText")) == Form(SingleChoice)
    ensures Classify(Some("instruction")) == ItemType.Instruction(InstructionSubtype.Instruction)
    ensures Classify(Some("activeTask")) == Custom(Some("activeTask"))
  {
    DataGroupsLetters("activeTask");
  }
}
