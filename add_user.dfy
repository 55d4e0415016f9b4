/**
 * The tenant-creation form: the record of field values, the error map that
 * `validateForm` rebuilds on every submit, the edit / reset / submit handlers,
 * the success notice with its dismiss timer, and where the prompt block is
 * placed relative to the grid of inputs.
 */
module AddUser {
  import opened Options
  import opened Text
  import FileUploader

  /** `keyof FormData`: the thirteen properties of the form record. */
  datatype Key =
    | Name | WhatsappNumber | WhatsappBusinessId | BusinessName | Email | Password
    | WhatsappApiToken | WhatsappPhoneNumber | WhatsappPhoneId | OpenaiApi
    | RetrievalToolName | RetrievalToolDescription | Prompt

  /**
   * The property name of a key, written one camel-case word at a time so
   * that proofs about its error message can go word by word.
   */
  function PropertyName(k: Key): string {
    match k
    case Name => "name"
    case WhatsappNumber => "whatsapp" + "Number"
    case WhatsappBusinessId => "whatsapp" + "Business" + "Id"
    case BusinessName => "business" + "Name"
    case Email => "email"
    case Password => "password"
    case WhatsappApiToken => "whatsapp" + "API" + "Token"
    case WhatsappPhoneNumber => "whatsapp" + "Phone" + "Number"
    case WhatsappPhoneId => "whatsapp" + "Phone" + "Id"
    case OpenaiApi => "openai" + "API"
    case RetrievalToolName => "retrieval" + "Tool" + "Name"
    case RetrievalToolDescription => "retrieval" + "Tool" + "Description"
    case Prompt => "prompt"
  }

  /** The `fields` list: the eleven keys the form declares, in display order. */
  const FieldKeys: seq<Key> := [
    BusinessName, Email, Password, WhatsappApiToken, WhatsappBusinessId, WhatsappPhoneNumber,
    WhatsappPhoneId, OpenaiApi, RetrievalToolName, RetrievalToolDescription, Prompt
  ]

  /** Only `name` and `whatsappNumber` are left out of `fields`. */
  predicate IsField(k: Key) {
    k != Name && k != WhatsappNumber
  }

  /** The position of a declared field in `fields`. */
  function FieldIndex(k: Key): (i: nat)
    requires IsField(k)
    ensures i < |FieldKeys| && FieldKeys[i] == k
  {
    match k
    case BusinessName => 0
    case Email => 1
    case Password => 2
    case WhatsappApiToken => 3
    case WhatsappBusinessId => 4
    case WhatsappPhoneNumber => 5
    case WhatsappPhoneId => 6
    case OpenaiApi => 7
    case RetrievalToolName => 8
    case RetrievalToolDescription => 9
    case Prompt => 10
  }

  /** A field not yet reached by a pass over `fields` that has done `i` steps. */
  predicate Visited(k: Key, i: int) {
    IsField(k) && FieldIndex(k) < i
  }

  lemma FieldKeysAreTheFields(k: Key)
    ensures k in FieldKeys <==> IsField(k)
  {
  }

  const FormKeys: set<Key> := {
    Name, WhatsappNumber, WhatsappBusinessId, BusinessName, Email, Password, WhatsappApiToken,
    WhatsappPhoneNumber, WhatsappPhoneId, OpenaiApi, RetrievalToolName, RetrievalToolDescription, Prompt
  }

  lemma EveryKeyIsAFormKey()
    ensures forall k :: k in FormKeys
  {
    forall k ensures k in FormKeys {
      match k
      case Name =>
      case WhatsappNumber =>
      case WhatsappBusinessId =>
      case BusinessName =>
      case Email =>
      case Password =>
      case WhatsappApiToken =>
      case WhatsappPhoneNumber =>
      case WhatsappPhoneId =>
      case OpenaiApi =>
      case RetrievalToolName =>
      case RetrievalToolDescription =>
      case Prompt =>
    }
  }

  /** Field values by key; a key that is absent reads as `undefined`. */
  type FormData = map<Key, string>

  /** Error messages by key; a present key with an empty message shows no error. */
  type FormErrors = map<Key, string>

  /** The record the form starts with: all thirteen keys, each the empty string. */
  function InitialFormData(): (d: FormData)
    ensures forall k :: k in d
    ensures forall k :: d[k] == ""
  {
    EveryKeyIsAFormKey();
    map k | k in FormKeys :: ""
  }

  /**
   * `!formData[k]?.trim()`: the value is absent or made of white space only
   * (`MissingMeansTrimsToNothing` ties this to `trim`).
   */
  predicate Missing(data: FormData, k: Key) {
    k !in data || AllSpace(data[k])
  }

  lemma MissingMeansTrimsToNothing(data: FormData, k: Key)
    ensures Missing(data, k) <==> k !in data || Trim(data[k]) == ""
  {
    if k in data {
      BlankIffAllSpace(data[k]);
    }
  }

  /** `/^\+?\d{10,}$/`: an optional '+' and then ten or more ASCII digits, nothing else. */
  predicate IsPhoneNumber(s: string) {
    var digits := if |s| > 0 && s[0] == '+' then s[1..] else s;
    |digits| >= 10 && AllDigits(digits)
  }

  const NameRequired := "Name is required"
  const WhatsappRequired := "WhatsApp number is required"
  const WhatsappInvalid := "Invalid WhatsApp number"
  const BusinessIdRequired := "Business ID is required"

  /**
   * `key.replace(/([A-Z])/g, ' $1')`, spelled out key by key: the property
   * name with a space before each capital. `MessageNameIsRewrite` proves
   * every entry equal to the rewrite of `PropertyName`; the validation
   * proofs use the spelled-out text, which the verifier does not have to
   * evaluate.
   */
  function MessageName(k: Key): string {
    match k
    case Name => "name"
    case WhatsappNumber => "whatsapp Number"
    case WhatsappBusinessId => "whatsapp Business Id"
    case BusinessName => "business Name"
    case Email => "email"
    case Password => "password"
    case WhatsappApiToken => "whatsapp A P I Token"
    case WhatsappPhoneNumber => "whatsapp Phone Number"
    case WhatsappPhoneId => "whatsapp Phone Id"
    case OpenaiApi => "openai A P I"
    case RetrievalToolName => "retrieval Tool Name"
    case RetrievalToolDescription => "retrieval Tool Description"
    case Prompt => "prompt"
  }

  /** The generic message for a declared field. */
  function RequiredMessage(k: Key): string {
    MessageName(k) + " is required"
  }

  /**
   * The rules of `validateForm` read key by key: which error, if any, the
   * rebuilt map holds for `k`. A declared field gets the generic message,
   * whatever other rule also names it.
   */
  function ExpectedError(data: FormData, k: Key): Option<string> {
    match k
    case Name => if Missing(data, k) then Some(NameRequired) else None
    case WhatsappNumber =>
      if Missing(data, k) then Some(WhatsappRequired)
      else if !IsPhoneNumber(data[k]) then Some(WhatsappInvalid)
      else None
    case _ => if Missing(data, k) then Some(RequiredMessage(k)) else None
  }

  /** The error map one validation pass builds from nothing. */
  function Validation(data: FormData): (e: FormErrors)
    ensures forall k :: k in e <==> ExpectedError(data, k).Some?
    ensures forall k :: k in e ==> e[k] == ExpectedError(data, k).value
  {
    map k | k in FormKeys && ExpectedError(data, k).Some? :: ExpectedError(data, k).value
  }

  /**
   * The first half of `validateForm`: the rules for `name`, `whatsappNumber`
   * and `whatsappBusinessId`. The first two verdicts are already the final
   * ones; a field is only present here when it is missing.
   */
  method NamedRules(data: FormData) returns (errors: FormErrors)
    ensures forall k :: !IsField(k) ==> (k in errors <==> ExpectedError(data, k).Some?)
    ensures forall k :: !IsField(k) && k in errors ==> errors[k] == ExpectedError(data, k).value
    ensures forall k :: IsField(k) && k in errors ==> Missing(data, k)
    ensures forall k :: IsField(k) && k in errors ==> k == WhatsappBusinessId
    ensures WhatsappBusinessId in errors <==> Missing(data, WhatsappBusinessId)
    ensures WhatsappBusinessId in errors ==> errors[WhatsappBusinessId] == BusinessIdRequired
  {
    errors := map[];
    if Missing(data, Name) {
      errors := errors[Name := NameRequired];
    }
    if Missing(data, WhatsappNumber) {
      errors := errors[WhatsappNumber := WhatsappRequired];
    } else if !IsPhoneNumber(data[WhatsappNumber]) {
      errors := errors[WhatsappNumber := WhatsappInvalid];
    }
    if Missing(data, WhatsappBusinessId) {
      errors := errors[WhatsappBusinessId := BusinessIdRequired];
    }
    forall k | !IsField(k)
      ensures k in errors <==> ExpectedError(data, k).Some?
      ensures k in errors ==> errors[k] == ExpectedError(data, k).value
    {
      if k == Name {
        assert ExpectedError(data, k).Some? <==> Missing(data, Name);
      } else {
        assert k == WhatsappNumber;
      }
    }
  }

  /**
   * The body of `validateForm`: the three named rules, then one pass over
   * `fields` that writes the generic message for every missing field,
   * overwriting what the named rules wrote for the same key.
   */
  method ComputeErrors(data: FormData) returns (errors: FormErrors)
    ensures errors == Validation(data)
  {
    errors := NamedRules(data);
    ghost var named := errors;
    var i := 0;
    while i < |FieldKeys|
      invariant 0 <= i <= |FieldKeys|
      invariant forall k :: !IsField(k) ==> (k in errors <==> k in named)
      invariant forall k :: !IsField(k) && k in errors ==> errors[k] == named[k]
      invariant forall k :: Visited(k, i) ==> (k in errors <==> Missing(data, k))
      invariant forall k :: Visited(k, i) && k in errors ==> errors[k] == RequiredMessage(k)
      invariant forall k :: IsField(k) && !Visited(k, i) && k in errors ==> Missing(data, k)
    {
      var key := FieldKeys[i];
      VisitedStep(i);
      if Missing(data, key) {
        errors := errors[key := RequiredMessage(key)];
      }
      i := i + 1;
    }
    FieldPassGivesValidation(data, named, errors);
  }

  /** One more step of the pass visits exactly one more key: the next field. */
  lemma VisitedStep(i: nat)
    requires i < |FieldKeys|
    ensures IsField(FieldKeys[i]) && !Visited(FieldKeys[i], i)
    ensures forall k :: Visited(k, i + 1) <==> Visited(k, i) || k == FieldKeys[i]
  {
    assert FieldIndex(FieldKeys[i]) == i;
  }

  /**
   * Once the pass has visited every field, the map holds the named rules'
   * verdicts on `name` and `whatsappNumber` and the generic verdict on every
   * field: that is `Validation`.
   */
  lemma FieldPassGivesValidation(data: FormData, named: FormErrors, errors: FormErrors)
    requires forall k :: !IsField(k) ==> (k in named <==> ExpectedError(data, k).Some?)
    requires forall k :: !IsField(k) && k in named ==> named[k] == ExpectedError(data, k).value
    requires forall k :: !IsField(k) ==> (k in errors <==> k in named)
    requires forall k :: !IsField(k) && k in errors ==> errors[k] == named[k]
    requires forall k :: Visited(k, |FieldKeys|) ==> (k in errors <==> Missing(data, k))
    requires forall k :: Visited(k, |FieldKeys|) && k in errors ==> errors[k] == RequiredMessage(k)
    ensures errors == Validation(data)
  {
    var expected := Validation(data);
    forall k ensures (k in errors <==> k in expected) && (k in errors ==> errors[k] == expected[k]) {
      if IsField(k) {
        assert Visited(k, |FieldKeys|);
      }
    }
  }

  /** Passing validation means exactly: a name, a well-formed WhatsApp number, and every declared field filled. */
  lemma ValidationPassesIff(data: FormData)
    ensures Validation(data) == map[] <==>
      && !Missing(data, Name)
      && !Missing(data, WhatsappNumber) && IsPhoneNumber(data[WhatsappNumber])
      && forall k :: k in FieldKeys ==> !Missing(data, k)
  {
    var e := Validation(data);
    if e == map[] {
      assert Name !in e && WhatsappNumber !in e;
      forall k | k in FieldKeys ensures !Missing(data, k) {
        assert k !in e;
      }
    }
  }

  /** Every message the map holds is non-empty, so every key it holds shows an error. */
  lemma ValidationMessagesNonEmpty(data: FormData, k: Key)
    requires k in Validation(data)
    ensures Validation(data)[k] != ""
  {
    if IsField(k) {
      assert |RequiredMessage(k)| >= |" is required"|;
    }
  }

  /** An all-blank record fails on every one of its thirteen keys. */
  lemma BlankFormFailsEverywhere(data: FormData)
    requires forall k :: k in FormKeys ==> Missing(data, k)
    ensures forall k :: k in Validation(data) <==> k in FormKeys
  {
  }

  /** "API" is all capitals, so each of its letters gets its own space. */
  lemma AcronymApi()
    ensures SpaceBeforeCapitals("API") == " A P I"
  {
  }

  lemma TwoWords(head: string, word: string)
    requires forall i :: 0 <= i < |head| ==> !IsUpperAscii(head[i])
    requires word != [] && IsUpperAscii(word[0])
    requires forall i :: 0 < i < |word| ==> !IsUpperAscii(word[i])
    ensures SpaceBeforeCapitals(head + word) == head + " " + word
  {
    SpaceBeforeCapitalsAppend(head, word);
    NoCapitalsUnchanged(head);
    CapitalisedWord(word);
  }

  lemma ThreeWords(head: string, word1: string, word2: string)
    requires forall i :: 0 <= i < |head| ==> !IsUpperAscii(head[i])
    requires word1 != [] && IsUpperAscii(word1[0])
    requires forall i :: 0 < i < |word1| ==> !IsUpperAscii(word1[i])
    requires word2 != [] && IsUpperAscii(word2[0])
    requires forall i :: 0 < i < |word2| ==> !IsUpperAscii(word2[i])
    ensures SpaceBeforeCapitals(head + word1 + word2) == head + " " + word1 + " " + word2
  {
    assert SpaceBeforeCapitals(head + word1 + word2) ==
      SpaceBeforeCapitals(head) + SpaceBeforeCapitals(word1) + SpaceBeforeCapitals(word2) by {
      RewriteThreePieces(head, word1, word2);
    }
    assert SpaceBeforeCapitals(head) == head by { NoCapitalsUnchanged(head); }
    assert SpaceBeforeCapitals(word1) == [' '] + word1 by { CapitalisedWord(word1); }
    assert SpaceBeforeCapitals(word2) == [' '] + word2 by { CapitalisedWord(word2); }
    JoinWithSpaces(head, [], word1, word2);
  }

  /** Regrouping the pieces of a rewritten key. */
  lemma JoinWithSpaces(head: string, middle: string, word1: string, word2: string)
    ensures head + (middle + [' '] + word1) + ([' '] + word2) == head + middle + " " + word1 + " " + word2
    ensures head + middle + ([' '] + word2) == head + middle + " " + word2
    ensures head + ([' '] + word1) + ([' '] + word2) == head + " " + word1 + " " + word2
  {
  }

  lemma WordsAroundAcronym(head: string, word: string)
    requires forall i :: 0 <= i < |head| ==> !IsUpperAscii(head[i])
    requires word != [] && IsUpperAscii(word[0])
    requires forall i :: 0 < i < |word| ==> !IsUpperAscii(word[i])
    ensures SpaceBeforeCapitals(head + "API" + word) == head + " A P I" + " " + word
  {
    assert SpaceBeforeCapitals(head + "API" + word) ==
      SpaceBeforeCapitals(head) + SpaceBeforeCapitals("API") + SpaceBeforeCapitals(word) by {
      RewriteThreePieces(head, "API", word);
    }
    assert SpaceBeforeCapitals(head) == head by { NoCapitalsUnchanged(head); }
    assert SpaceBeforeCapitals("API") == " A P I" by { AcronymApi(); }
    assert SpaceBeforeCapitals(word) == [' '] + word by { CapitalisedWord(word); }
    JoinWithSpaces(head, " A P I", [], word);
  }

  lemma RewriteThreePieces(a: string, b: string, c: string)
    ensures SpaceBeforeCapitals(a + b + c) == SpaceBeforeCapitals(a) + SpaceBeforeCapitals(b) + SpaceBeforeCapitals(c)
  {
    SpaceBeforeCapitalsAppend(a + b, c);
    SpaceBeforeCapitalsAppend(a, b);
  }

  lemma WordBeforeAcronym(head: string)
    requires forall i :: 0 <= i < |head| ==> !IsUpperAscii(head[i])
    ensures SpaceBeforeCapitals(head + "API") == head + " A P I"
  {
    SpaceBeforeCapitalsAppend(head, "API");
    NoCapitalsUnchanged(head);
    AcronymApi();
  }

  lemma WhatsappNumberWords()
    ensures SpaceBeforeCapitals("whatsapp" + "Number") == "whatsapp Number"
  {
    TwoWords("whatsapp", "Number");
    assert "whatsapp" + " " + "Number" == "whatsapp Number";
  }

  lemma WhatsappNumberName()
    ensures SpaceBeforeCapitals(PropertyName(WhatsappNumber)) == MessageName(WhatsappNumber)
  {
    WhatsappNumberWords();
  }

  lemma WhatsappBusinessIdWords()
    ensures SpaceBeforeCapitals("whatsapp" + "Business" + "Id") == "whatsapp Business Id"
  {
    ThreeWords("whatsapp", "Business", "Id");
    assert "whatsapp" + " " + "Business" + " " + "Id" == "whatsapp Business Id";
  }

  lemma WhatsappBusinessIdName()
    ensures SpaceBeforeCapitals(PropertyName(WhatsappBusinessId)) == MessageName(WhatsappBusinessId)
  {
    WhatsappBusinessIdWords();
  }

  lemma BusinessNameWords()
    ensures SpaceBeforeCapitals("business" + "Name") == "business Name"
  {
    TwoWords("business", "Name");
    assert "business" + " " + "Name" == "business Name";
  }

  lemma BusinessNameName()
    ensures SpaceBeforeCapitals(PropertyName(BusinessName)) == MessageName(BusinessName)
  {
    BusinessNameWords();
  }

  lemma WhatsappApiTokenWords()
    ensures SpaceBeforeCapitals("whatsapp" + "API" + "Token") == "whatsapp A P I Token"
  {
    WordsAroundAcronym("whatsapp", "Token");
    assert "whatsapp" + " A P I" + " " + "Token" == "whatsapp A P I Token";
  }

  lemma WhatsappApiTokenName()
    ensures SpaceBeforeCapitals(PropertyName(WhatsappApiToken)) == MessageName(WhatsappApiToken)
  {
    WhatsappApiTokenWords();
  }

  lemma WhatsappPhoneNumberWords()
    ensures SpaceBeforeCapitals("whatsapp" + "Phone" + "Number") == "whatsapp Phone Number"
  {
    ThreeWords("whatsapp", "Phone", "Number");
    assert "whatsapp" + " " + "Phone" + " " + "Number" == "whatsapp Phone Number";
  }

  lemma WhatsappPhoneNumberName()
    ensures SpaceBeforeCapitals(PropertyName(WhatsappPhoneNumber)) == MessageName(WhatsappPhoneNumber)
  {
    WhatsappPhoneNumberWords();
  }

  lemma WhatsappPhoneIdWords()
    ensures SpaceBeforeCapitals("whatsapp" + "Phone" + "Id") == "whatsapp Phone Id"
  {
    ThreeWords("whatsapp", "Phone", "Id");
    assert "whatsapp" + " " + "Phone" + " " + "Id" == "whatsapp Phone Id";
  }

  lemma WhatsappPhoneIdName()
    ensures SpaceBeforeCapitals(PropertyName(WhatsappPhoneId)) == MessageName(WhatsappPhoneId)
  {
    WhatsappPhoneIdWords();
  }

  lemma OpenaiApiWords()
    ensures SpaceBeforeCapitals("openai" + "API") == "openai A P I"
  {
    WordBeforeAcronym("openai");
    assert "openai" + " A P I" == "openai A P I";
  }

  lemma OpenaiApiName()
    ensures SpaceBeforeCapitals(PropertyName(OpenaiApi)) == MessageName(OpenaiApi)
  {
    OpenaiApiWords();
  }

  lemma RetrievalToolNameWords()
    ensures SpaceBeforeCapitals("retrieval" + "Tool" + "Name") == "retrieval Tool Name"
  {
    ThreeWords("retrieval", "Tool", "Name");
    assert "retrieval" + " " + "Tool" + " " + "Name" == "retrieval Tool Name";
  }

  lemma RetrievalToolNameName()
    ensures SpaceBeforeCapitals(PropertyName(RetrievalToolName)) == MessageName(RetrievalToolName)
  {
    RetrievalToolNameWords();
  }

  lemma RetrievalToolDescriptionWords()
    ensures SpaceBeforeCapitals("retrieval" + "Tool" + "Description") == "retrieval Tool Description"
  {
    ThreeWords("retrieval", "Tool", "Description");
    assert "retrieval" + " " + "Tool" + " " + "Description" == "retrieval Tool Description";
  }

  lemma RetrievalToolDescriptionName()
    ensures SpaceBeforeCapitals(PropertyName(RetrievalToolDescription)) == MessageName(RetrievalToolDescription)
  {
    RetrievalToolDescriptionWords();
  }

  /**
   * Every spelled-out message name is the rewrite of its property name.
   * Each capital gets its own space, so `openaiAPI` reads "openai A P I".
   */
  lemma MessageNameIsRewrite(k: Key)
    ensures MessageName(k) == SpaceBeforeCapitals(PropertyName(k))
  {
    match k
    case Name => NoCapitalsUnchanged("name");
    case WhatsappNumber => WhatsappNumberName();
    case WhatsappBusinessId => WhatsappBusinessIdName();
    case BusinessName => BusinessNameName();
    case Email => NoCapitalsUnchanged("email");
    case Password => NoCapitalsUnchanged("password");
    case WhatsappApiToken => WhatsappApiTokenName();
    case WhatsappPhoneNumber => WhatsappPhoneNumberName();
    case WhatsappPhoneId => WhatsappPhoneIdName();
    case OpenaiApi => OpenaiApiName();
    case RetrievalToolName => RetrievalToolNameName();
    case RetrievalToolDescription => RetrievalToolDescriptionName();
    case Prompt => NoCapitalsUnchanged("prompt");
  }

  /**
   * A blank `whatsappBusinessId` always ends with the generic message: the
   * pass over `fields` overwrites the "Business ID is required" written first.
   */
  lemma BusinessIdGetsGenericMessage(data: FormData)
    requires Missing(data, WhatsappBusinessId)
    ensures WhatsappBusinessId in Validation(data)
    ensures Validation(data)[WhatsappBusinessId] == RequiredMessage(WhatsappBusinessId)
    ensures Validation(data)[WhatsappBusinessId] != BusinessIdRequired
  {
    assert RequiredMessage(WhatsappBusinessId)[0] == 'w';
  }

  /**
   * The pattern sees the number untrimmed: a well-formed number with white
   * space before or after it is reported invalid, not missing.
   */
  lemma PaddedNumberIsInvalid(data: FormData, pre: string, number: string, post: string)
    requires IsPhoneNumber(number) && AllSpace(pre) && AllSpace(post) && pre + post != ""
    requires WhatsappNumber in data && data[WhatsappNumber] == pre + number + post
    ensures WhatsappNumber in Validation(data)
    ensures Validation(data)[WhatsappNumber] == WhatsappInvalid
  {
    var padded := data[WhatsappNumber];
    var digit := if number[0] == '+' then 1 else 0;
    assert padded[|pre| + digit] == number[digit];
    assert !AllSpace(padded);
    if pre != [] {
      assert padded[0] == pre[0];
      assert !IsAsciiDigit(padded[0]);
    } else {
      assert padded[|padded| - 1] == post[|post| - 1];
      assert !IsAsciiDigit(padded[|padded| - 1]);
    }
  }

  /** "12345" is too short; "+14155551234" is accepted. */
  lemma PhoneNumberExamples()
    ensures !IsPhoneNumber("12345")
    ensures IsPhoneNumber("+14155551234")
  {
  }

  /** `handleInputChange` on the error map: a shown error for `key` is blanked, everything else stays. */
  function ClearedErrors(errors: FormErrors, key: Key): (r: FormErrors)
    ensures r.Keys == errors.Keys
    ensures forall k :: k in r && k != key ==> r[k] == errors[k]
    ensures key in r ==> r[key] == ""
  {
    if key in errors && errors[key] != "" then errors[key := ""] else errors
  }

  /** `fields.filter(f => f !== promptField)`: the keys that get a grid input. */
  function GridKeys(): (r: seq<Key>)
    ensures forall k :: k in r <==> k in FieldKeys && k != Prompt
  {
    FieldKeys[..10]
  }

  /**
   * The keys the page renders an input for: the grid inputs and the prompt
   * textarea. They are exactly the declared fields, so `name` and
   * `whatsappNumber` can never be edited.
   */
  function EditableKeys(): (r: set<Key>)
    ensures forall k :: k in r <==> k in FieldKeys
    ensures Name !in r && WhatsappNumber !in r
  {
    (set k | k in GridKeys()) + {Prompt}
  }

  /** `handleReset`: a record holding only the eleven declared fields, each empty. */
  function ResetFormData(): (d: FormData)
    ensures forall k :: k in d <==> k in FieldKeys
    ensures forall k :: k in d ==> d[k] == ""
    ensures Name !in d && WhatsappNumber !in d
  {
    map k | k in FieldKeys :: ""
  }

  /** What `handleAddUser` leaves in the record: cleared on success, untouched on failure. */
  function AfterSubmit(data: FormData): FormData {
    if Validation(data) == map[] then ResetFormData() else data
  }

  /** What a user can do to the form's record. */
  datatype FormEvent = Edit(key: Key, value: string) | Cancel | Submit

  predicate UserCanDo(ev: FormEvent) {
    ev.Edit? ==> ev.key in EditableKeys()
  }

  function Step(data: FormData, ev: FormEvent): FormData {
    match ev
    case Edit(k, v) => data[k := v]
    case Cancel => ResetFormData()
    case Submit => AfterSubmit(data)
  }

  /** The record after a sequence of events, applied oldest first. */
  function Replay(data: FormData, evs: seq<FormEvent>): FormData {
    if evs == [] then data else Step(Replay(data, evs[..|evs| - 1]), evs[|evs| - 1])
  }

  /** No event a user can cause ever fills in `name`. */
  lemma {:induction false} NameStaysMissing(data: FormData, evs: seq<FormEvent>)
    requires Missing(data, Name)
    requires forall i :: 0 <= i < |evs| ==> UserCanDo(evs[i])
    ensures Missing(Replay(data, evs), Name)
  {
    if evs != [] {
      NameStaysMissing(data, evs[..|evs| - 1]);
      var before := Replay(data, evs[..|evs| - 1]);
      match evs[|evs| - 1]
      case Edit(k, v) =>
        assert k != Name;
      case Cancel =>
      case Submit =>
        assert Name in Validation(before);
    }
  }

  /** Starting from a freshly mounted form, whatever the user edits, no submit can pass validation. */
  lemma SubmitNeverSucceeds(evs: seq<FormEvent>)
    requires forall i :: 0 <= i < |evs| ==> UserCanDo(evs[i])
    ensures Name in Validation(Replay(InitialFormData(), evs))
    ensures Validation(Replay(InitialFormData(), evs)) != map[]
  {
    assert IsBlank(InitialFormData()[Name]);
    NameStaysMissing(InitialFormData(), evs);
  }

  /** Line 210: the prompt block sits above the grid only on a large screen with no files. */
  predicate PromptAboveGrid(isFileUploaded: bool, isSmallScreen: bool, isMidScreen: bool) {
    !isFileUploaded && !isSmallScreen && !isMidScreen
  }

  /** Line 298: the prompt block sits below the grid; exactly one of the two blocks is shown. */
  function PromptBelowGrid(isFileUploaded: bool, isSmallScreen: bool, isMidScreen: bool): (below: bool)
    ensures below <==> !PromptAboveGrid(isFileUploaded, isSmallScreen, isMidScreen)
  {
    isFileUploaded || isSmallScreen || isMidScreen
  }

  /** The `(max-width: 768px)` media query. */
  predicate IsSmallScreen(width: real) {
    width <= 768.0
  }

  /** The `(min-width: 769px) and (max-width: 1040px)` media query. */
  predicate IsMidScreen(width: real) {
    769.0 <= width <= 1040.0
  }

  /**
   * From the viewport width: the prompt is above the grid exactly when no
   * file is uploaded and the width is over 1040px, or falls strictly between
   * 768px and 769px, where neither media query matches.
   */
  lemma PromptAboveByWidth(isFileUploaded: bool, width: real)
    ensures PromptAboveGrid(isFileUploaded, IsSmallScreen(width), IsMidScreen(width)) <==>
      !isFileUploaded && (width > 1040.0 || 768.0 < width < 769.0)
  {
  }

  class TenantForm {
    var formData: FormData
    var errors: FormErrors
    var isSuccess: bool
    /** Dismiss timers started by successful submits that have not fired yet. */
    var pendingTimers: nat
    /** The last value the upload widget reported. */
    var isFileUploaded: bool

    constructor ()
      ensures formData == InitialFormData() && errors == map[]
      ensures !isSuccess && pendingTimers == 0 && !isFileUploaded
    {
      formData := InitialFormData();
      errors := map[];
      isSuccess := false;
      pendingTimers := 0;
      isFileUploaded := false;
    }

    /** `validateForm`: replaces the error map with a freshly built one and reports whether it is empty. */
    method ValidateForm() returns (ok: bool)
      modifies this`errors
      ensures errors == Validation(formData)
      ensures ok <==> errors == map[]
    {
      var newErrors := ComputeErrors(formData);
      errors := newErrors;
      ok := |newErrors| == 0;
    }

    /** `handleInputChange`: sets one value; a shown error for that key is blanked. */
    method HandleInputChange(key: Key, value: string)
      modifies this`formData, this`errors
      ensures formData == old(formData)[key := value]
      ensures errors == ClearedErrors(old(errors), key)
    {
      formData := formData[key := value];
      if key in errors && errors[key] != "" {
        errors := errors[key := ""];
      }
    }

    /** `handleReset`: the record is rebuilt from the declared fields only and the errors are dropped. */
    method HandleReset()
      modifies this`formData, this`errors
      ensures formData == ResetFormData() && errors == map[]
    {
      var reset: FormData := map[];
      var i := 0;
      while i < |FieldKeys|
        invariant 0 <= i <= |FieldKeys|
        invariant forall k :: k in reset <==> k in FieldKeys[..i]
        invariant forall k :: k in reset ==> reset[k] == ""
      {
        assert FieldKeys[..i + 1] == FieldKeys[..i] + [FieldKeys[i]];
        reset := reset[FieldKeys[i] := ""];
        i := i + 1;
      }
      assert FieldKeys[..i] == FieldKeys;
      formData := reset;
      errors := map[];
    }

    /**
     * `handleAddUser`: on a passing validation, the success notice goes up,
     * a dismiss timer starts and the form is reset; otherwise only the
     * error map changes.
     */
    method HandleAddUser()
      modifies this`formData, this`errors, this`isSuccess, this`pendingTimers
      ensures formData == AfterSubmit(old(formData))
      ensures Validation(old(formData)) == map[] ==>
        errors == map[] && isSuccess && pendingTimers == old(pendingTimers) + 1
      ensures Validation(old(formData)) != map[] ==>
        errors == Validation(old(formData)) && isSuccess == old(isSuccess) && pendingTimers == old(pendingTimers)
    {
      var ok := ValidateForm();
      if ok {
        isSuccess := true;
        pendingTimers := pendingTimers + 1;
        HandleReset();
      }
    }

    /**
     * One dismiss timer fires and hides the notice. Earlier timers are never
     * cancelled, so the notice of a second submit can be hidden early.
     */
    method SuccessTimerFires()
      requires pendingTimers > 0
      modifies this`isSuccess, this`pendingTimers
      ensures !isSuccess && pendingTimers == old(pendingTimers) - 1
    {
      isSuccess := false;
      pendingTimers := pendingTimers - 1;
    }

    /** The callback handed to the upload widget. */
    method SetFileUploaded(value: bool)
      modifies this`isFileUploaded
      ensures isFileUploaded == value
    {
      isFileUploaded := value;
    }
  }

  /** Applies one user event to the form through its handlers. */
  method Dispatch(form: TenantForm, ev: FormEvent)
    modifies form
    ensures form.formData == Step(old(form.formData), ev)
    ensures form.isFileUploaded == old(form.isFileUploaded)
    ensures ev.Edit? ==> form.errors == ClearedErrors(old(form.errors), ev.key)
    ensures ev.Cancel? ==> form.errors == map[]
    ensures ev.Submit? && Validation(old(form.formData)) == map[] ==>
      form.errors == map[] && form.isSuccess && form.pendingTimers == old(form.pendingTimers) + 1
    ensures ev.Submit? && Validation(old(form.formData)) != map[] ==> form.errors == Validation(old(form.formData))
    ensures !(ev.Submit? && Validation(old(form.formData)) == map[]) ==>
      form.isSuccess == old(form.isSuccess) && form.pendingTimers == old(form.pendingTimers)
  {
    match ev
    case Edit(k, v) => form.HandleInputChange(k, v);
    case Cancel => form.HandleReset();
    case Submit => form.HandleAddUser();
  }

  /** Before each event of a session the record still fails validation, and the event extends the replay. */
  lemma SessionStep(evs: seq<FormEvent>, i: nat)
    requires i < |evs|
    requires forall j :: 0 <= j < |evs| ==> UserCanDo(evs[j])
    ensures Validation(Replay(InitialFormData(), evs[..i])) != map[]
    ensures Replay(InitialFormData(), evs[..i + 1]) == Step(Replay(InitialFormData(), evs[..i]), evs[i])
  {
    assert evs[..i + 1][..i] == evs[..i];
    SubmitNeverSucceeds(evs[..i]);
  }

  /** A freshly mounted form driven through user events never shows the success notice. */
  method UserSession(evs: seq<FormEvent>) returns (form: TenantForm)
    requires forall i :: 0 <= i < |evs| ==> UserCanDo(evs[i])
    ensures form.formData == Replay(InitialFormData(), evs)
    ensures !form.isSuccess && form.pendingTimers == 0
  {
    form := new TenantForm();
    var i := 0;
    while i < |evs|
      invariant 0 <= i <= |evs|
      invariant form.formData == Replay(InitialFormData(), evs[..i])
      invariant !form.isSuccess && form.pendingTimers == 0
    {
      SessionStep(evs, i);
      Dispatch(form, evs[i]);
      i := i + 1;
    }
    assert evs[..i] == evs;
  }

  /**
   * A drop on the upload widget followed by the widget's report to the form:
   * the form learns whether files are present and nothing else in it changes.
   */
  method DropIntoForm(form: TenantForm, uploader: FileUploader.Uploader, batch: seq<FileUploader.UploadFile>)
    requires uploader.Valid() && uploader.hasListener
    modifies form`isFileUploaded, uploader`files, uploader`error, uploader`reported, uploader`dragActive
    ensures uploader.Valid()
    ensures uploader.files == old(uploader.files) + FileUploader.Accepted(batch, uploader.maxFileSizeMiB)
    ensures form.isFileUploaded == (|uploader.files| > 0)
    ensures PromptAboveGrid(form.isFileUploaded, false, false) <==> uploader.files == []
    ensures !uploader.dragActive
    ensures uploader.error == FileUploader.SlotAfter(batch, uploader.maxFileSizeMiB, old(uploader.error))
    ensures uploader.reported == old(uploader.reported) + [|uploader.files| > 0]
  {
    uploader.HandleDrop(batch);
    form.SetFileUploaded(uploader.reported[|uploader.reported| - 1]);
  }
}
