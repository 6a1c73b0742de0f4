/**
 * The submission record of the material-tracking form (FormData): how its constructor
 * normalises the submitted object, which fields validate() requires, and the flat
 * 28-column row toSpreadsheetRow() produces.
 */
module Submission {
  import opened Values
  import opened Seqs

  // ---------------------------------------------------------------- nested parts

  /** One entry of the material composition. */
  datatype Material = Material(
    compositionMaterial: JsValue,
    percentage: JsValue,
    sustainable: JsValue,
    sustainabilityClaim: JsValue,
    feedstockRecycledMaterials: JsValue)

  /** A named file attached to a validation source. */
  datatype Document = Document(name: JsValue, file: JsValue)

  /** One feedstock source of a self-validation; the two lists may be absent. */
  datatype Source = Source(
    kgs: JsValue,
    feedstockType: JsValue,
    feedstockSourceType: JsValue,
    sourceName: JsValue,
    address: JsValue,
    sourceCertification: JsValue,
    sourceInvoiceNo: JsValue,
    sourceInvoiceDate: JsValue,
    invoiceFile: JsValue,
    packingListFile: JsValue,
    proofOfDeliveryFile: JsValue,
    labTestingFile: JsValue,
    certificates: Option<seq<Document>>,
    otherDocuments: Option<seq<Document>>)

  datatype SelfValidation = SelfValidation(sources: seq<Source>, totalSourceInput: JsValue)

  datatype Certificate = Certificate(name: JsValue, description: JsValue, status: JsValue, validThruDate: JsValue)

  datatype Certificates = Certificates(environmental: seq<Certificate>, social: seq<Certificate>, chemical: seq<Certificate>)

  const NoCertificates := Certificates([], [], [])

  /** The nested values the row serialisers pass to JSON.stringify. */
  datatype Payload =
    | MaterialsPayload(materials: seq<Material>)
    | SelfValidationPayload(selfValidation: Option<SelfValidation>)
    | CertificatesPayload(certificates: Certificates)
    | DocumentsPayload(documents: seq<Document>)

  /** JSON.stringify, whose text the model leaves open: every statement holds for any such function. */
  type Stringify = Payload -> string

  // ---------------------------------------------------------------- the record

  /**
   * The object handed to the constructor. Scalar properties sit in a map keyed by property
   * (a missing key reads as undefined); None stands for an absent, null or otherwise falsy
   * nested part.
   */
  datatype FormInput = FormInput(
    fields: map<Field, JsValue>,
    materials: Option<seq<Material>>,
    selfValidation: Option<SelfValidation>,
    certificates: Option<Certificates>)

  datatype FormData = FormData(
    id: JsValue,
    submissionDate: JsValue,
    date: JsValue,
    productionFacility: JsValue,
    valueChainProcessMain: JsValue,
    valueChainProcessSub: JsValue,
    awareTokenType: JsValue,
    materialSpecification: JsValue,
    mainColorSelected: JsValue,
    mainColorText: JsValue,
    productionLotBatchNo: JsValue,
    totalWeightKgs: JsValue,
    sustainableProcessClaims: JsValue,
    wetProcessing: JsValue,
    materials: seq<Material>,
    awareAssetId: JsValue,
    tracerAdded: JsValue,
    typeOfTracer: JsValue,
    awareTracerPositiveScanDate: JsValue,
    awareTracerTestReport: JsValue,
    awareTracerConfirmation: JsValue,
    customTracerName: JsValue,
    customTracerDatePositiveReport: JsValue,
    customTracerTestReport: JsValue,
    customTracerConfirmation: JsValue,
    validationMethod: JsValue,
    selfValidation: Option<SelfValidation>,
    guanXuDocumentation: JsValue,
    guanXuFullName: JsValue,
    guanXuDeclaration: JsValue,
    stcpDocumentation: JsValue,
    stcpFullName: JsValue,
    stcpDeclaration: JsValue,
    certificates: Certificates)

  /** The properties of the record, by name. */
  datatype Field =
    | Id | SubmissionDate | Date | ProductionFacility | ValueChainProcessMain | ValueChainProcessSub
    | AwareTokenType | MaterialSpecification | MainColorSelected | MainColorText
    | ProductionLotBatchNo | TotalWeightKgs | SustainableProcessClaims | WetProcessing | Materials
    | AwareAssetId | TracerAdded | TypeOfTracer | AwareTracerPositiveScanDate | AwareTracerTestReport
    | AwareTracerConfirmation | CustomTracerName | CustomTracerDatePositiveReport
    | CustomTracerTestReport | CustomTracerConfirmation | ValidationMethod | SelfValidationField
    | GuanXuDocumentation | GuanXuFullName | GuanXuDeclaration | StcpDocumentation | StcpFullName
    | StcpDeclaration | CertificatesField

  /** The boolean flags: the constructor defaults them to false. */
  predicate IsFlag(f: Field) {
    f in {SustainableProcessClaims, WetProcessing, TracerAdded, AwareTracerConfirmation,
          CustomTracerConfirmation, GuanXuDeclaration, StcpDeclaration}
  }

  /** The nested parts: a list, an object and an object of lists. */
  predicate IsNested(f: Field) {
    f in {Materials, SelfValidationField, CertificatesField}
  }

  /** The scalar properties the constructor defaults to null. */
  predicate IsNullable(f: Field) {
    !IsFlag(f) && !IsNested(f) && f != SubmissionDate
  }

  /** Reads a scalar property of the record; the nested parts read as undefined here. */
  function Prop(fd: FormData, f: Field): JsValue {
    match f
    case Id => fd.id
    case SubmissionDate => fd.submissionDate
    case Date => fd.date
    case ProductionFacility => fd.productionFacility
    case ValueChainProcessMain => fd.valueChainProcessMain
    case ValueChainProcessSub => fd.valueChainProcessSub
    case AwareTokenType => fd.awareTokenType
    case MaterialSpecification => fd.materialSpecification
    case MainColorSelected => fd.mainColorSelected
    case MainColorText => fd.mainColorText
    case ProductionLotBatchNo => fd.productionLotBatchNo
    case TotalWeightKgs => fd.totalWeightKgs
    case SustainableProcessClaims => fd.sustainableProcessClaims
    case WetProcessing => fd.wetProcessing
    case AwareAssetId => fd.awareAssetId
    case TracerAdded => fd.tracerAdded
    case TypeOfTracer => fd.typeOfTracer
    case AwareTracerPositiveScanDate => fd.awareTracerPositiveScanDate
    case AwareTracerTestReport => fd.awareTracerTestReport
    case AwareTracerConfirmation => fd.awareTracerConfirmation
    case CustomTracerName => fd.customTracerName
    case CustomTracerDatePositiveReport => fd.customTracerDatePositiveReport
    case CustomTracerTestReport => fd.customTracerTestReport
    case CustomTracerConfirmation => fd.customTracerConfirmation
    case ValidationMethod => fd.validationMethod
    case GuanXuDocumentation => fd.guanXuDocumentation
    case GuanXuFullName => fd.guanXuFullName
    case GuanXuDeclaration => fd.guanXuDeclaration
    case StcpDocumentation => fd.stcpDocumentation
    case StcpFullName => fd.stcpFullName
    case StcpDeclaration => fd.stcpDeclaration
    case _ => Undefined
  }

  /** Property read `data.x` on the constructor's argument: a missing property reads as undefined. */
  function Given(fields: map<Field, JsValue>, f: Field): JsValue {
    if f in fields then fields[f] else Undefined
  }

  /** `kept` is what `given || fallback` evaluates to. */
  predicate Defaulted(given: JsValue, kept: JsValue, fallback: JsValue) {
    if Truthy(given) then kept == given else kept == fallback
  }

  /** The shape every constructed record has: no falsy value but null in a nullable property, none but false in a flag. */
  predicate Normalised(fd: FormData) {
    && (forall f :: IsNullable(f) ==> Prop(fd, f) == Null || Truthy(Prop(fd, f)))
    && (forall f :: IsFlag(f) ==> Prop(fd, f) == Bool(false) || Truthy(Prop(fd, f)))
  }

  /**
   * `new FormData(data)`: every property is `data.x || default`. `now` is the ISO text of
   * the current time that stands in for a missing submission date.
   */
  function FromInput(input: FormInput, now: string): (fd: FormData)
    ensures Defaulted(Given(input.fields, SubmissionDate), fd.submissionDate, Str(now))
    ensures fd.materials == if input.materials.Some? then input.materials.value else []
    ensures fd.selfValidation == input.selfValidation
    ensures fd.certificates == if input.certificates.Some? then input.certificates.value else NoCertificates
  {
    var f := input.fields;
    FormData(
      id := Or(Given(f, Id), Null),
      submissionDate := Or(Given(f, SubmissionDate), Str(now)),
      date := Or(Given(f, Date), Null),
      productionFacility := Or(Given(f, ProductionFacility), Null),
      valueChainProcessMain := Or(Given(f, ValueChainProcessMain), Null),
      valueChainProcessSub := Or(Given(f, ValueChainProcessSub), Null),
      awareTokenType := Or(Given(f, AwareTokenType), Null),
      materialSpecification := Or(Given(f, MaterialSpecification), Null),
      mainColorSelected := Or(Given(f, MainColorSelected), Null),
      mainColorText := Or(Given(f, MainColorText), Null),
      productionLotBatchNo := Or(Given(f, ProductionLotBatchNo), Null),
      totalWeightKgs := Or(Given(f, TotalWeightKgs), Null),
      sustainableProcessClaims := Or(Given(f, SustainableProcessClaims), Bool(false)),
      wetProcessing := Or(Given(f, WetProcessing), Bool(false)),
      materials := if input.materials.Some? then input.materials.value else [],
      awareAssetId := Or(Given(f, AwareAssetId), Null),
      tracerAdded := Or(Given(f, TracerAdded), Bool(false)),
      typeOfTracer := Or(Given(f, TypeOfTracer), Null),
      awareTracerPositiveScanDate := Or(Given(f, AwareTracerPositiveScanDate), Null),
      awareTracerTestReport := Or(Given(f, AwareTracerTestReport), Null),
      awareTracerConfirmation := Or(Given(f, AwareTracerConfirmation), Bool(false)),
      customTracerName := Or(Given(f, CustomTracerName), Null),
      customTracerDatePositiveReport := Or(Given(f, CustomTracerDatePositiveReport), Null),
      customTracerTestReport := Or(Given(f, CustomTracerTestReport), Null),
      customTracerConfirmation := Or(Given(f, CustomTracerConfirmation), Bool(false)),
      validationMethod := Or(Given(f, ValidationMethod), Null),
      selfValidation := input.selfValidation,
      guanXuDocumentation := Or(Given(f, GuanXuDocumentation), Null),
      guanXuFullName := Or(Given(f, GuanXuFullName), Null),
      guanXuDeclaration := Or(Given(f, GuanXuDeclaration), Bool(false)),
      stcpDocumentation := Or(Given(f, StcpDocumentation), Null),
      stcpFullName := Or(Given(f, StcpFullName), Null),
      stcpDeclaration := Or(Given(f, StcpDeclaration), Bool(false)),
      certificates := if input.certificates.Some? then input.certificates.value else NoCertificates)
  }

  /** A nullable property is kept when the input's value is truthy and is null otherwise. */
  lemma FromInputNullable(input: FormInput, now: string, f: Field)
    requires IsNullable(f)
    ensures Defaulted(Given(input.fields, f), Prop(FromInput(input, now), f), Null)
  {
  }

  /** A flag is kept when the input's value is truthy and is false otherwise. */
  lemma FromInputFlag(input: FormInput, now: string, f: Field)
    requires IsFlag(f)
    ensures Defaulted(Given(input.fields, f), Prop(FromInput(input, now), f), Bool(false))
  {
  }

  /** Every record the constructor builds is normalised, and its submission date is set. */
  lemma FromInputNormalised(input: FormInput, now: string)
    requires now != ""
    ensures Normalised(FromInput(input, now))
    ensures Truthy(FromInput(input, now).submissionDate)
  {
    var fd := FromInput(input, now);
    forall f | IsNullable(f) ensures Prop(fd, f) == Null || Truthy(Prop(fd, f)) {
      FromInputNullable(input, now, f);
    }
    forall f | IsFlag(f) ensures Prop(fd, f) == Bool(false) || Truthy(Prop(fd, f)) {
      FromInputFlag(input, now, f);
    }
  }

  // ---------------------------------------------------------------- validate()

  const MsgDate := "Date is required"
  const MsgFacility := "Production Facility is required"
  const MsgChainMain := "Value Chain Process (Main) is required"
  const MsgChainSub := "Value Chain Process (Sub) is required"
  const MsgSpecification := "Material Specification is required"
  const MsgColor := "Main Color is required"
  const MsgBatchNo := "Production Lot/Batch No. is required"
  const MsgWeight := "Total Weight is required"
  const MsgMaterials := "At least one material composition is required"
  const MsgTracer := "Type of Tracer is required when tracer is added"
  const MsgValidationMethod := "Validation method is required"

  /** The eleven checks of validate(), one per message. */
  datatype Rule =
    | DateRule | FacilityRule | ChainMainRule | ChainSubRule | SpecificationRule | ColorRule
    | BatchNoRule | WeightRule | MaterialsRule | TracerRule | ValidationMethodRule

  /** The check validate() runs at position k, for k from 0 to 10. */
  function RuleAt(k: int): Rule {
    match k
    case 0 => DateRule
    case 1 => FacilityRule
    case 2 => ChainMainRule
    case 3 => ChainSubRule
    case 4 => SpecificationRule
    case 5 => ColorRule
    case 6 => BatchNoRule
    case 7 => WeightRule
    case 8 => MaterialsRule
    case 9 => TracerRule
    case _ => ValidationMethodRule
  }

  /** The checks in the order validate() runs them. */
  function Rules(): seq<Rule> {
    seq(11, RuleAt)
  }

  function Message(r: Rule): string {
    match r
    case DateRule => MsgDate
    case FacilityRule => MsgFacility
    case ChainMainRule => MsgChainMain
    case ChainSubRule => MsgChainSub
    case SpecificationRule => MsgSpecification
    case ColorRule => MsgColor
    case BatchNoRule => MsgBatchNo
    case WeightRule => MsgWeight
    case MaterialsRule => MsgMaterials
    case TracerRule => MsgTracer
    case ValidationMethodRule => MsgValidationMethod
  }

  /** When the record violates a rule. */
  predicate Violated(fd: FormData, r: Rule) {
    match r
    case DateRule => !Truthy(fd.date)
    case FacilityRule => !Truthy(fd.productionFacility)
    case ChainMainRule => !Truthy(fd.valueChainProcessMain)
    case ChainSubRule => !Truthy(fd.valueChainProcessSub)
    case SpecificationRule => !Truthy(fd.materialSpecification)
    case ColorRule => !Truthy(fd.mainColorSelected)
    case BatchNoRule => !Truthy(fd.productionLotBatchNo)
    case WeightRule => !Truthy(fd.totalWeightKgs)
    case MaterialsRule => |fd.materials| == 0
    case TracerRule => Truthy(fd.tracerAdded) && !Truthy(fd.typeOfTracer)
    case ValidationMethodRule => !Truthy(fd.validationMethod)
  }

  /** The messages of a list of rules, in the same order. */
  function MessagesOf(rs: seq<Rule>): (ms: seq<string>)
    ensures |ms| == |rs|
    ensures forall i :: 0 <= i < |rs| ==> ms[i] == Message(rs[i])
  {
    MapSeq(rs, Message)
  }

  /** The rule check of one record, as the predicate a filter takes. */
  function ViolatedBy(fd: FormData): Rule -> bool {
    r => Violated(fd, r)
  }

  /** The rules the record violates, in check order. */
  function ViolatedRules(fd: FormData): seq<Rule> {
    Filter(Rules(), ViolatedBy(fd))
  }

  /** The messages of the eight required-field checks, pushed in order. */
  function RequiredFieldErrors(fd: FormData): seq<string> {
    Pushed(Pushed(Pushed(Pushed(Pushed(Pushed(Pushed(Pushed([],
      !Truthy(fd.date), MsgDate),
      !Truthy(fd.productionFacility), MsgFacility),
      !Truthy(fd.valueChainProcessMain), MsgChainMain),
      !Truthy(fd.valueChainProcessSub), MsgChainSub),
      !Truthy(fd.materialSpecification), MsgSpecification),
      !Truthy(fd.mainColorSelected), MsgColor),
      !Truthy(fd.productionLotBatchNo), MsgBatchNo),
      !Truthy(fd.totalWeightKgs), MsgWeight)
  }

  /** The messages validate() returns: the required fields, then materials, tracer type and validation method. */
  function ValidationErrors(fd: FormData): seq<string> {
    Pushed(Pushed(Pushed(RequiredFieldErrors(fd),
      |fd.materials| == 0, MsgMaterials),
      Truthy(fd.tracerAdded) && !Truthy(fd.typeOfTracer), MsgTracer),
      !Truthy(fd.validationMethod), MsgValidationMethod)
  }

  /** What a complete submission has: the eight required fields, a material, a tracer type when a tracer is added, and a validation method. */
  predicate Complete(fd: FormData) {
    && Truthy(fd.date) && Truthy(fd.productionFacility)
    && Truthy(fd.valueChainProcessMain) && Truthy(fd.valueChainProcessSub)
    && Truthy(fd.materialSpecification) && Truthy(fd.mainColorSelected)
    && Truthy(fd.productionLotBatchNo) && Truthy(fd.totalWeightKgs)
    && |fd.materials| > 0
    && (Truthy(fd.tracerAdded) ==> Truthy(fd.typeOfTracer))
    && Truthy(fd.validationMethod)
  }

  /**
   * A form whose input gives every required property a truthy value and at least one material
   * is complete; the tracer type is needed only when the input declares a tracer.
   */
  lemma GivenRequiredComplete(input: FormInput, now: string)
    requires Truthy(Given(input.fields, Date)) && Truthy(Given(input.fields, ProductionFacility))
    requires Truthy(Given(input.fields, ValueChainProcessMain)) && Truthy(Given(input.fields, ValueChainProcessSub))
    requires Truthy(Given(input.fields, MaterialSpecification)) && Truthy(Given(input.fields, MainColorSelected))
    requires Truthy(Given(input.fields, ProductionLotBatchNo)) && Truthy(Given(input.fields, TotalWeightKgs))
    requires input.materials.Some? && |input.materials.value| > 0
    requires Truthy(Given(input.fields, TracerAdded)) ==> Truthy(Given(input.fields, TypeOfTracer))
    requires Truthy(Given(input.fields, ValidationMethod))
    ensures Complete(FromInput(input, now))
  {
  }

  datatype ValidationResult = ValidationResult(isValid: bool, errors: seq<string>)

  /** `errors` after a check: the message is appended when the check fails. */
  function Pushed(errors: seq<string>, failed: bool, message: string): seq<string> {
    if failed then errors + [message] else errors
  }

  /** The messages of the violated rules among the first k, as the checks push them. */
  function ErrorsUpTo(fd: FormData, k: nat): seq<string>
    requires k <= 11
  {
    if k == 0 then [] else Pushed(ErrorsUpTo(fd, k - 1), Violated(fd, RuleAt(k - 1)), Message(RuleAt(k - 1)))
  }

  /** Appending a rule appends its message. */
  lemma MessagesOfSnoc(rs: seq<Rule>, r: Rule)
    ensures MessagesOf(rs + [r]) == MessagesOf(rs) + [Message(r)]
  {
    MapSeqSnoc(rs, r, Message);
  }

  /** Filtering one more rule of the table appends that rule when the record violates it. */
  lemma FilterRulesStep(fd: FormData, k: nat)
    requires 0 < k <= 11
    ensures Filter(Rules()[..k], ViolatedBy(fd))
         == Filter(Rules()[..k - 1], ViolatedBy(fd)) + if Violated(fd, RuleAt(k - 1)) then [RuleAt(k - 1)] else []
  {
    assert Rules()[..k] == Rules()[..k - 1] + [RuleAt(k - 1)];
    FilterAppend(Rules()[..k - 1], [RuleAt(k - 1)], ViolatedBy(fd));
  }

  /** Pushing rule by rule yields the messages of the rule table filtered by the record. */
  lemma {:induction false} ErrorsUpToFilter(fd: FormData, k: nat)
    requires k <= 11
    ensures ErrorsUpTo(fd, k) == MessagesOf(Filter(Rules()[..k], ViolatedBy(fd)))
  {
    if k > 0 {
      ErrorsUpToFilter(fd, k - 1);
      FilterRulesStep(fd, k);
      MessagesOfSnoc(Filter(Rules()[..k - 1], ViolatedBy(fd)), RuleAt(k - 1));
    }
  }

  /** The first four checks of validate(), spelled out with their conditions and messages. */
  lemma ErrorsUpToFour(fd: FormData)
    ensures ErrorsUpTo(fd, 4) == Pushed(Pushed(Pushed(Pushed([],
      !Truthy(fd.date), MsgDate),
      !Truthy(fd.productionFacility), MsgFacility),
      !Truthy(fd.valueChainProcessMain), MsgChainMain),
      !Truthy(fd.valueChainProcessSub), MsgChainSub)
  {
    assert ErrorsUpTo(fd, 1) == Pushed(ErrorsUpTo(fd, 0), !Truthy(fd.date), MsgDate);
    assert ErrorsUpTo(fd, 2) == Pushed(ErrorsUpTo(fd, 1), !Truthy(fd.productionFacility), MsgFacility);
    assert ErrorsUpTo(fd, 3) == Pushed(ErrorsUpTo(fd, 2), !Truthy(fd.valueChainProcessMain), MsgChainMain);
    assert ErrorsUpTo(fd, 4) == Pushed(ErrorsUpTo(fd, 3), !Truthy(fd.valueChainProcessSub), MsgChainSub);
  }

  /** The eight required-field checks are the first eight rules of the table. */
  lemma ErrorsUpToEight(fd: FormData)
    ensures ErrorsUpTo(fd, 8) == RequiredFieldErrors(fd)
  {
    ErrorsUpToFour(fd);
    assert ErrorsUpTo(fd, 5) == Pushed(ErrorsUpTo(fd, 4), !Truthy(fd.materialSpecification), MsgSpecification);
    assert ErrorsUpTo(fd, 6) == Pushed(ErrorsUpTo(fd, 5), !Truthy(fd.mainColorSelected), MsgColor);
    assert ErrorsUpTo(fd, 7) == Pushed(ErrorsUpTo(fd, 6), !Truthy(fd.productionLotBatchNo), MsgBatchNo);
    assert ErrorsUpTo(fd, 8) == Pushed(ErrorsUpTo(fd, 7), !Truthy(fd.totalWeightKgs), MsgWeight);
  }

  /** The rule table read as a fold is the check sequence of validate(). */
  lemma ErrorsUpToUnrolled(fd: FormData)
    ensures ErrorsUpTo(fd, 11) == ValidationErrors(fd)
  {
    ErrorsUpToEight(fd);
    assert ErrorsUpTo(fd, 9) == Pushed(ErrorsUpTo(fd, 8), |fd.materials| == 0, MsgMaterials);
    assert ErrorsUpTo(fd, 10) == Pushed(ErrorsUpTo(fd, 9), Truthy(fd.tracerAdded) && !Truthy(fd.typeOfTracer), MsgTracer);
    assert ErrorsUpTo(fd, 11) == Pushed(ErrorsUpTo(fd, 10), !Truthy(fd.validationMethod), MsgValidationMethod);
  }

  /** The errors are the messages of the rules the record violates, in table order. */
  lemma ValidationErrorsFilter(fd: FormData)
    ensures ValidationErrors(fd) == MessagesOf(ViolatedRules(fd))
  {
    ErrorsUpToUnrolled(fd);
    ErrorsUpToFilter(fd, 11);
    assert Rules()[..11] == Rules();
  }

  /** One line of validate(): `if (failed) errors.push(message)`. */
  method PushIf(errors: seq<string>, failed: bool, message: string) returns (result: seq<string>)
    ensures result == Pushed(errors, failed, message)
  {
    result := errors;
    if failed {
      result := result + [message];
    }
  }

  /** `formData.validate()`: the checks run one after another, each pushing its message. */
  method Validate(fd: FormData) returns (result: ValidationResult)
    ensures result.errors == ValidationErrors(fd)
    ensures result.errors == MessagesOf(ViolatedRules(fd))
    ensures result.isValid <==> result.errors == []
    ensures result.isValid <==> Complete(fd)
  {
    var errors: seq<string> := [];
    errors := PushIf(errors, !Truthy(fd.date), MsgDate);
    errors := PushIf(errors, !Truthy(fd.productionFacility), MsgFacility);
    errors := PushIf(errors, !Truthy(fd.valueChainProcessMain), MsgChainMain);
    errors := PushIf(errors, !Truthy(fd.valueChainProcessSub), MsgChainSub);
    errors := PushIf(errors, !Truthy(fd.materialSpecification), MsgSpecification);
    errors := PushIf(errors, !Truthy(fd.mainColorSelected), MsgColor);
    errors := PushIf(errors, !Truthy(fd.productionLotBatchNo), MsgBatchNo);
    errors := PushIf(errors, !Truthy(fd.totalWeightKgs), MsgWeight);

    errors := PushIf(errors, |fd.materials| == 0, MsgMaterials);
    errors := PushIf(errors, Truthy(fd.tracerAdded) && !Truthy(fd.typeOfTracer), MsgTracer);
    errors := PushIf(errors, !Truthy(fd.validationMethod), MsgValidationMethod);

    assert errors == ValidationErrors(fd);
    ValidationErrorsFilter(fd);
    NoErrorsIffComplete(fd);
    result := ValidationResult(|errors| == 0, errors);
  }

  /** The eleven messages are distinct, so a message names its rule. */
  lemma MessagesDistinct(r1: Rule, r2: Rule)
    requires r1 != r2
    ensures Message(r1) != Message(r2)
  {
    match r1
    case DateRule =>
    case FacilityRule =>
    case ChainMainRule =>
    case ChainSubRule =>
    case SpecificationRule =>
    case ColorRule =>
    case BatchNoRule =>
    case WeightRule =>
    case MaterialsRule =>
    case TracerRule =>
    case ValidationMethodRule =>
  }

  /** Every rule is in the table. */
  lemma RuleListed(r: Rule)
    ensures r in Rules()
  {
    var k := match r
      case DateRule => 0
      case FacilityRule => 1
      case ChainMainRule => 2
      case ChainSubRule => 3
      case SpecificationRule => 4
      case ColorRule => 5
      case BatchNoRule => 6
      case WeightRule => 7
      case MaterialsRule => 8
      case TracerRule => 9
      case ValidationMethodRule => 10;
    assert Rules()[k] == r;
  }

  /** The violations keep check order and each rule is reported at most once. */
  lemma ErrorsInCheckOrder(fd: FormData)
    ensures IsSubsequence(ViolatedRules(fd), Rules())
    ensures |ValidationErrors(fd)| <= 11
  {
    ValidationErrorsFilter(fd);
    FilterIsSubsequence(Rules(), ViolatedBy(fd));
  }

  /** A rule's message is reported exactly when the record violates the rule. */
  lemma ErrorReportedIffViolated(fd: FormData, r: Rule)
    ensures Message(r) in ValidationErrors(fd) <==> Violated(fd, r)
  {
    ValidationErrorsFilter(fd);
    var violated := ViolatedRules(fd);
    var errors := MessagesOf(violated);
    RuleListed(r);
    if Message(r) in errors {
      var i :| 0 <= i < |errors| && errors[i] == Message(r);
      if violated[i] != r {
        MessagesDistinct(violated[i], r);
      }
      assert violated[i] in violated;
    }
  }

  /** A record passes validation exactly when it is complete. */
  lemma NoErrorsIffComplete(fd: FormData)
    ensures ValidationErrors(fd) == [] <==> Complete(fd)
  {
    ValidationErrorsFilter(fd);
    var violated := ViolatedRules(fd);
    if violated == [] {
      forall r ensures !Violated(fd, r) {
        RuleListed(r);
        assert r !in violated;
      }
      assert !Violated(fd, DateRule) && !Violated(fd, FacilityRule) && !Violated(fd, ChainMainRule);
      assert !Violated(fd, ChainSubRule) && !Violated(fd, SpecificationRule) && !Violated(fd, ColorRule);
      assert !Violated(fd, BatchNoRule) && !Violated(fd, WeightRule) && !Violated(fd, MaterialsRule);
      assert !Violated(fd, TracerRule) && !Violated(fd, ValidationMethodRule);
    } else {
      assert violated[0] in violated;
    }
  }

  // ---------------------------------------------------------------- toSpreadsheetRow()

  /** The 28 column headers of a submission row, in order. */
  const SubmissionColumns: seq<string> := [
    "Submission ID", "Submission Date", "Date", "Production Facility",
    "Value Chain Process (Main)", "Value Chain Process (Sub)", "Aware Token Type",
    "Material Specification", "Main Color (Selected)", "Main Color (Text)",
    "Production Lot/Batch No.", "Total Weight (Kgs)", "Sustainable Process Claims",
    "Wet Processing", "Materials", "Aware Asset ID", "Tracer Added", "Type of Tracer",
    "Aware Tracer Scan Date", "Aware Tracer Test Report", "Custom Tracer Name",
    "Custom Tracer Date", "Custom Tracer Report", "Validation Method",
    "Self Validation Data", "Guan Xu Full Name", "STCP Full Name", "Certificates"
  ]

  /** The values of a submission's row, one per column of SubmissionColumns. */
  function SubmissionCells(fd: FormData, stringify: Stringify): (cells: seq<JsValue>)
    ensures |cells| == |SubmissionColumns|
  {
    [
      fd.id,
      fd.submissionDate,
      fd.date,
      fd.productionFacility,
      fd.valueChainProcessMain,
      fd.valueChainProcessSub,
      fd.awareTokenType,
      fd.materialSpecification,
      fd.mainColorSelected,
      fd.mainColorText,
      fd.productionLotBatchNo,
      fd.totalWeightKgs,
      YesNo(fd.sustainableProcessClaims),
      YesNo(fd.wetProcessing),
      Str(stringify(MaterialsPayload(fd.materials))),
      fd.awareAssetId,
      YesNo(fd.tracerAdded),
      fd.typeOfTracer,
      fd.awareTracerPositiveScanDate,
      fd.awareTracerTestReport,
      fd.customTracerName,
      fd.customTracerDatePositiveReport,
      fd.customTracerTestReport,
      fd.validationMethod,
      Str(stringify(SelfValidationPayload(fd.selfValidation))),
      fd.guanXuFullName,
      fd.stcpFullName,
      Str(stringify(CertificatesPayload(fd.certificates)))
    ]
  }

  /** `formData.toSpreadsheetRow()`: the entries of the returned object, in key order. */
  function ToSpreadsheetRow(fd: FormData, stringify: Stringify): (row: seq<(string, JsValue)>)
    ensures |row| == |SubmissionColumns| == 28
    ensures forall i :: 0 <= i < |row| ==> row[i].0 == SubmissionColumns[i]
  {
    Zip(SubmissionColumns, SubmissionCells(fd, stringify))
  }

  /** The row's keys are 28 distinct names, whatever the record: the object has exactly 28 properties. */
  lemma SubmissionColumnsDistinct()
    ensures forall i, j :: 0 <= i < j < |SubmissionColumns| ==> SubmissionColumns[i] != SubmissionColumns[j]
  {
  }

  /** The row starts with the submission id and renders the three flags as exactly 'Yes' or 'No'. */
  lemma RowIdAndFlags(fd: FormData, stringify: Stringify)
    ensures ToSpreadsheetRow(fd, stringify)[0] == ("Submission ID", fd.id)
    ensures ToSpreadsheetRow(fd, stringify)[12].1 == Str("Yes") <==> Truthy(fd.sustainableProcessClaims)
    ensures ToSpreadsheetRow(fd, stringify)[13].1 == Str("Yes") <==> Truthy(fd.wetProcessing)
    ensures ToSpreadsheetRow(fd, stringify)[16].1 == Str("Yes") <==> Truthy(fd.tracerAdded)
    ensures forall i :: i in {12, 13, 16} ==> ToSpreadsheetRow(fd, stringify)[i].1 in {Str("Yes"), Str("No")}
  {
  }

  /** The three nested parts are written as their JSON text. */
  lemma RowNestedParts(fd: FormData, stringify: Stringify)
    ensures ToSpreadsheetRow(fd, stringify)[14] == ("Materials", Str(stringify(MaterialsPayload(fd.materials))))
    ensures ToSpreadsheetRow(fd, stringify)[24] == ("Self Validation Data", Str(stringify(SelfValidationPayload(fd.selfValidation))))
    ensures ToSpreadsheetRow(fd, stringify)[27] == ("Certificates", Str(stringify(CertificatesPayload(fd.certificates))))
  {
  }
}
