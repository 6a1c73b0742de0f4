/**
 * The client library of the platform: the API client's base URL and option handling, the
 * body it sends when a batch is submitted, and the two builders that assemble a form
 * submission and a blockchain batch.
 */
module Sdk {
  import opened Values
  import opened Strings
  import opened Submission

  // ---------------------------------------------------------------- the API client

  const DefaultBaseUrl := "http://localhost:3000"

  /** `url.replace(/\/$/, '')`: one slash at the very end is dropped, nothing else. */
  function StripTrailingSlash(url: string): (r: string)
    ensures |url| > 0 && url[|url| - 1] == '/' ==> r + "/" == url
    ensures !(|url| > 0 && url[|url| - 1] == '/') ==> r == url
  {
    if |url| > 0 && url[|url| - 1] == '/' then url[..|url| - 1] else url
  }

  /** Appending a slash and stripping it gives the URL back, whatever it ends with. */
  lemma StripTrailingSlashRoundTrip(url: string)
    ensures StripTrailingSlash(url + "/") == url
  {
  }

  /** Only one slash is dropped: a URL ending in two keeps one. */
  lemma StripOnlyOneSlash(url: string)
    ensures StripTrailingSlash(url + "//") == url + "/"
  {
    assert url + "//" == (url + "/") + "/";
  }

  /** The options every client starts from. */
  function DefaultOptions(): map<string, JsValue> {
    map["timeout" := Num(30000)]
  }

  /** `{ timeout: 30000, ...options }`: the caller's options win over the default. */
  function MergeOptions(options: map<string, JsValue>): (merged: map<string, JsValue>)
    ensures merged.Keys == options.Keys + {"timeout"}
    ensures forall k :: k in options ==> merged[k] == options[k]
    ensures "timeout" !in options ==> merged["timeout"] == Num(30000)
  {
    DefaultOptions() + options
  }

  /** The login the client keeps after a successful login. */
  datatype Credentials = Credentials(username: JsValue, password: JsValue)

  /**
   * `{ ...batchData }` with the stored username and password added when the client has
   * credentials; the caller's object is copied, never changed.
   */
  function RequestBody(batchData: map<string, JsValue>, credentials: Option<Credentials>): (body: map<string, JsValue>)
    ensures credentials.None? ==> body == batchData
    ensures credentials.Some? ==> body.Keys == batchData.Keys + {"username", "password"}
    ensures credentials.Some? ==> body["username"] == credentials.value.username && body["password"] == credentials.value.password
    ensures forall k :: k in batchData && k != "username" && k != "password" ==> k in body && body[k] == batchData[k]
  {
    match credentials
    case None => batchData
    case Some(c) => batchData["username" := c.username]["password" := c.password]
  }

  /** A body sent with credentials carries them whatever the batch data held under those names. */
  lemma RequestBodyCredentialsWin(batchData: map<string, JsValue>, c: Credentials)
    ensures Get(RequestBody(batchData, Some(c)), "username") == c.username
    ensures Get(RequestBody(batchData, Some(c)), "password") == c.password
    ensures RequestBody(RequestBody(batchData, Some(c)), Some(c)) == RequestBody(batchData, Some(c))
  {
  }

  /** `AwareSDK`: the base URL, the request options and the stored login. */
  class AwareSdk {
    var baseUrl: string
    var options: map<string, JsValue>
    var credentials: Option<Credentials>

    /**
     * `new AwareSDK(baseURL, options)`; None stands for an omitted argument, which takes its
     * default (an omitted or null options object adds nothing to the defaults).
     */
    constructor(baseUrl: Option<string>, options: Option<map<string, JsValue>>)
      ensures this.baseUrl == StripTrailingSlash(if baseUrl.Some? then baseUrl.value else DefaultBaseUrl)
      ensures this.options == MergeOptions(if options.Some? then options.value else map[])
      ensures credentials.None?
    {
      var url := if baseUrl.Some? then baseUrl.value else DefaultBaseUrl;
      this.baseUrl := StripTrailingSlash(url);
      this.options := MergeOptions(if options.Some? then options.value else map[]);
      credentials := None;
    }

    /**
     * The state change of `login(username, password)`: the credentials are stored when the
     * server accepts the login (`accepted`); otherwise login throws and nothing changes.
     */
    method Login(username: JsValue, password: JsValue, accepted: bool)
      modifies this
      ensures accepted ==> credentials == Some(Credentials(username, password))
      ensures !accepted ==> credentials == old(credentials)
      ensures baseUrl == old(baseUrl) && options == old(options)
    {
      if accepted {
        credentials := Some(Credentials(username, password));
      }
    }

    /** The state change of `logout()`: the credentials are dropped once the server was reached. */
    method Logout(reached: bool)
      modifies this
      ensures reached ==> credentials.None?
      ensures !reached ==> credentials == old(credentials)
      ensures baseUrl == old(baseUrl) && options == old(options)
    {
      if reached {
        credentials := None;
      }
    }

    /** The body `submitBatch(batchData)` sends: the batch data, with the credentials when there are any. */
    method SubmitBatchBody(batchData: map<string, JsValue>) returns (body: map<string, JsValue>)
      ensures body == RequestBody(batchData, credentials)
    {
      var requestData := batchData;
      if credentials.Some? {
        requestData := requestData["username" := credentials.value.username];
        requestData := requestData["password" := credentials.value.password];
      }
      body := requestData;
    }
  }

  // ---------------------------------------------------------------- SubmissionBuilder

  /**
   * `SubmissionBuilder`: the scalar properties set so far, the materials and certificate
   * lists the add methods push onto, and the self-validation object once one is set.
   */
  class SubmissionBuilder {
    var fields: map<Field, JsValue>
    var materials: seq<Material>
    var certificates: Certificates
    var selfValidation: Option<SelfValidation>

    /** A new builder has no properties set, no materials and three empty certificate lists. */
    constructor()
      ensures fields == map[] && materials == [] && certificates == NoCertificates && selfValidation.None?
    {
      fields := map[];
      materials := [];
      certificates := NoCertificates;
      selfValidation := None;
    }

    /** `build()`: the object the builder has assembled, as FormData's constructor receives it. */
    function Data(): (data: FormInput)
      reads this
      ensures data.fields == fields && data.materials == Some(materials)
      ensures data.selfValidation == selfValidation && data.certificates == Some(certificates)
    {
      FormInput(fields, Some(materials), selfValidation, Some(certificates))
    }

    /** `setDate(date)` */
    method SetDate(date: JsValue)
      modifies this
      ensures fields == old(fields)[Date := date]
      ensures unchanged(this`materials, this`certificates, this`selfValidation)
    {
      fields := fields[Date := date];
    }

    /** `setProductionFacility(facility)` */
    method SetProductionFacility(facility: JsValue)
      modifies this
      ensures fields == old(fields)[ProductionFacility := facility]
      ensures unchanged(this`materials, this`certificates, this`selfValidation)
    {
      fields := fields[ProductionFacility := facility];
    }

    /** `setAwareTokenType(tokenType)` */
    method SetAwareTokenType(tokenType: JsValue)
      modifies this
      ensures fields == old(fields)[AwareTokenType := tokenType]
      ensures unchanged(this`materials, this`certificates, this`selfValidation)
    {
      fields := fields[AwareTokenType := tokenType];
    }

    /** `setMaterialSpecification(spec)` */
    method SetMaterialSpecification(spec: JsValue)
      modifies this
      ensures fields == old(fields)[MaterialSpecification := spec]
      ensures unchanged(this`materials, this`certificates, this`selfValidation)
    {
      fields := fields[MaterialSpecification := spec];
    }

    /** `setProductionLotBatchNo(batchNo)` */
    method SetProductionLotBatchNo(batchNo: JsValue)
      modifies this
      ensures fields == old(fields)[ProductionLotBatchNo := batchNo]
      ensures unchanged(this`materials, this`certificates, this`selfValidation)
    {
      fields := fields[ProductionLotBatchNo := batchNo];
    }

    /** `setTotalWeight(weightKgs)` */
    method SetTotalWeight(weightKgs: JsValue)
      modifies this
      ensures fields == old(fields)[TotalWeightKgs := weightKgs]
      ensures unchanged(this`materials, this`certificates, this`selfValidation)
    {
      fields := fields[TotalWeightKgs := weightKgs];
    }

    /** `setSustainableProcessClaims(value)` */
    method SetSustainableProcessClaims(value: JsValue)
      modifies this
      ensures fields == old(fields)[SustainableProcessClaims := value]
      ensures unchanged(this`materials, this`certificates, this`selfValidation)
    {
      fields := fields[SustainableProcessClaims := value];
    }

    /** `setWetProcessing(value)` */
    method SetWetProcessing(value: JsValue)
      modifies this
      ensures fields == old(fields)[WetProcessing := value]
      ensures unchanged(this`materials, this`certificates, this`selfValidation)
    {
      fields := fields[WetProcessing := value];
    }

    /** `setAwareAssetId(assetId)` */
    method SetAwareAssetId(assetId: JsValue)
      modifies this
      ensures fields == old(fields)[AwareAssetId := assetId]
      ensures unchanged(this`materials, this`certificates, this`selfValidation)
    {
      fields := fields[AwareAssetId := assetId];
    }

    /** `setTracerAdded(value)` */
    method SetTracerAdded(value: JsValue)
      modifies this
      ensures fields == old(fields)[TracerAdded := value]
      ensures unchanged(this`materials, this`certificates, this`selfValidation)
    {
      fields := fields[TracerAdded := value];
    }

    /** `setValidationMethod(validationMethod)` */
    method SetValidationMethod(validationMethod: JsValue)
      modifies this
      ensures fields == old(fields)[ValidationMethod := validationMethod]
      ensures unchanged(this`materials, this`certificates, this`selfValidation)
    {
      fields := fields[ValidationMethod := validationMethod];
    }

    /** `setValueChainProcess(main, sub)` */
    method SetValueChainProcess(main: JsValue, sub: JsValue)
      modifies this
      ensures fields == old(fields)[ValueChainProcessMain := main][ValueChainProcessSub := sub]
      ensures unchanged(this`materials, this`certificates, this`selfValidation)
    {
      fields := fields[ValueChainProcessMain := main];
      fields := fields[ValueChainProcessSub := sub];
    }

    /** `setMainColor(colorCode, colorText)` */
    method SetMainColor(colorCode: JsValue, colorText: JsValue)
      modifies this
      ensures fields == old(fields)[MainColorSelected := colorCode][MainColorText := colorText]
      ensures unchanged(this`materials, this`certificates, this`selfValidation)
    {
      fields := fields[MainColorSelected := colorCode];
      fields := fields[MainColorText := colorText];
    }

    /** `setAwareTracer(scanDate, testReport)`: the tracer type becomes 'Aware' and is confirmed. */
    method SetAwareTracer(scanDate: JsValue, testReport: JsValue)
      modifies this
      ensures fields == old(fields)[TypeOfTracer := Str("Aware")][AwareTracerPositiveScanDate := scanDate]
                                   [AwareTracerTestReport := testReport][AwareTracerConfirmation := Bool(true)]
      ensures unchanged(this`materials, this`certificates, this`selfValidation)
    {
      fields := fields[TypeOfTracer := Str("Aware")];
      fields := fields[AwareTracerPositiveScanDate := scanDate];
      fields := fields[AwareTracerTestReport := testReport];
      fields := fields[AwareTracerConfirmation := Bool(true)];
    }

    /** `setCustomTracer(name, date, testReport)`: the tracer type becomes 'Custom' and is confirmed. */
    method SetCustomTracer(name: JsValue, date: JsValue, testReport: JsValue)
      modifies this
      ensures fields == old(fields)[TypeOfTracer := Str("Custom")][CustomTracerName := name]
                                   [CustomTracerDatePositiveReport := date][CustomTracerTestReport := testReport]
                                   [CustomTracerConfirmation := Bool(true)]
      ensures unchanged(this`materials, this`certificates, this`selfValidation)
    {
      fields := fields[TypeOfTracer := Str("Custom")];
      fields := fields[CustomTracerName := name];
      fields := fields[CustomTracerDatePositiveReport := date];
      fields := fields[CustomTracerTestReport := testReport];
      fields := fields[CustomTracerConfirmation := Bool(true)];
    }

    /** `setSelfValidation(validationData)`; None stands for an absent or null object. */
    method SetSelfValidation(validationData: Option<SelfValidation>)
      modifies this
      ensures fields == old(fields)[ValidationMethod := Str("SelfValidation")]
      ensures selfValidation == validationData
      ensures unchanged(this`materials, this`certificates)
    {
      fields := fields[ValidationMethod := Str("SelfValidation")];
      selfValidation := validationData;
    }

    /** `setGuanXuValidation(fullName, documentation)`: the method becomes 'GuanXu', with its declaration. */
    method SetGuanXuValidation(fullName: JsValue, documentation: JsValue)
      modifies this
      ensures fields == old(fields)[ValidationMethod := Str("GuanXu")][GuanXuFullName := fullName]
                                   [GuanXuDocumentation := documentation][GuanXuDeclaration := Bool(true)]
      ensures unchanged(this`materials, this`certificates, this`selfValidation)
    {
      fields := fields[ValidationMethod := Str("GuanXu")];
      fields := fields[GuanXuFullName := fullName];
      fields := fields[GuanXuDocumentation := documentation];
      fields := fields[GuanXuDeclaration := Bool(true)];
    }

    /** `setSTCPValidation(fullName, documentation)`: the method becomes 'STCP', with its declaration. */
    method SetStcpValidation(fullName: JsValue, documentation: JsValue)
      modifies this
      ensures fields == old(fields)[ValidationMethod := Str("STCP")][StcpFullName := fullName]
                                   [StcpDocumentation := documentation][StcpDeclaration := Bool(true)]
      ensures unchanged(this`materials, this`certificates, this`selfValidation)
    {
      fields := fields[ValidationMethod := Str("STCP")];
      fields := fields[StcpFullName := fullName];
      fields := fields[StcpDocumentation := documentation];
      fields := fields[StcpDeclaration := Bool(true)];
    }

    /** `addMaterial(material)`: appended to the materials, nothing else changes. */
    method AddMaterial(material: Material)
      modifies this
      ensures materials == old(materials) + [material]
      ensures unchanged(this`fields, this`certificates, this`selfValidation)
    {
      materials := materials + [material];
    }

    /** `addEnvironmentalCertificate(cert)`: only the environmental list grows. */
    method AddEnvironmentalCertificate(cert: Certificate)
      modifies this
      ensures certificates == old(certificates).(environmental := old(certificates).environmental + [cert])
      ensures unchanged(this`fields, this`materials, this`selfValidation)
    {
      certificates := certificates.(environmental := certificates.environmental + [cert]);
    }

    /** `addSocialCertificate(cert)`: only the social list grows. */
    method AddSocialCertificate(cert: Certificate)
      modifies this
      ensures certificates == old(certificates).(social := old(certificates).social + [cert])
      ensures unchanged(this`fields, this`materials, this`selfValidation)
    {
      certificates := certificates.(social := certificates.social + [cert]);
    }

    /** `addChemicalCertificate(cert)`: only the chemical list grows. */
    method AddChemicalCertificate(cert: Certificate)
      modifies this
      ensures certificates == old(certificates).(chemical := old(certificates).chemical + [cert])
      ensures unchanged(this`fields, this`materials, this`selfValidation)
    {
      certificates := certificates.(chemical := certificates.chemical + [cert]);
    }

    /** `build()` */
    method Build() returns (data: FormInput)
      ensures data == Data()
    {
      data := FormInput(fields, Some(materials), selfValidation, Some(certificates));
    }
  }

  /** What a built submission becomes on the server: its materials, certificates and self-validation arrive unchanged. */
  lemma BuiltSubmissionParts(fields: map<Field, JsValue>, materials: seq<Material>, sv: Option<SelfValidation>,
                             certificates: Certificates, now: string)
    ensures FromInput(FormInput(fields, Some(materials), sv, Some(certificates)), now).materials == materials
    ensures FromInput(FormInput(fields, Some(materials), sv, Some(certificates)), now).certificates == certificates
    ensures FromInput(FormInput(fields, Some(materials), sv, Some(certificates)), now).selfValidation == sv
  {
  }

  /** A submission built with a tracer setter never fails the tracer check, whatever tracerAdded says. */
  lemma TracerSetterSatisfiesTracerRule(input: FormInput, now: string)
    requires Given(input.fields, TypeOfTracer) in {Str("Aware"), Str("Custom")}
    ensures !Violated(FromInput(input, now), TracerRule)
  {
  }

  // ---------------------------------------------------------------- BatchBuilder

  const PhysicalAssetDefaults: map<string, JsValue> := map[
    "assetId" := Str(""), "material" := Str(""), "composition" := Str(""), "weight" := Str("0"),
    "batchNumber" := Str(""), "productionDate" := Str(""), "expiryDate" := Str(""),
    "color" := Str(""), "colorHex" := Str(""), "productionFacility" := Str(""),
    "valueChainMain" := Str(""), "valueChainSub" := Str(""), "tokenType" := Str(""),
    "materialSpec" := Str(""), "mainColor" := Str(""), "sustainableClaims" := Str(""),
    "wetProcessing" := Str("")
  ]

  const TracerDefaults: map<string, JsValue> := map[
    "supplier" := Str(""), "farmLocation" := Str(""), "country" := Str(""),
    "gpsCoordinates" := Str(""), "certifications" := Str(""), "harvestDate" := Str(""),
    "tracerType" := Str(""), "tracerName" := Str(""), "tracerDate" := Str(""),
    "tracerAdded" := Str("false")
  ]

  const ValidationDefaults: map<string, JsValue> := map[
    "qualityGrade" := Str(""), "moistureContent" := Str(""), "contamination" := Str(""),
    "inspectionDate" := Str(""), "inspector" := Str("Self-Validation"), "labResults" := Str(""),
    "validationType" := Str("")
  ]

  const ComplianceDefaults: map<string, JsValue> := map[
    "regulatoryStandards" := Str(""), "sustainabilityCert" := Str(""), "fairTradeCert" := Str(""),
    "organicCert" := Str(""), "carbonFootprint" := Str(""), "waterUsage" := Str(""),
    "selectedCerts" := Str("")
  ]

  /** `value.toString()` for the values setWeight is given. */
  function ToText(value: JsValue): (text: string)
    requires value.Num? || value.Str? || value.Bool?
    ensures value.Str? ==> text == value.s
    ensures value.Num? ==> ParseInt(text) == Some(value.n) && Canonical(text) && (text[0] == '-' <==> value.n < 0)
    ensures value.Bool? ==> text == if value.b then "true" else "false"
  {
    match value
    case Num(n) => ParseIntOfIntToString(n); IntToStringCanonical(n); IntToString(n)
    case Str(s) => s
    case Bool(b) => if b then "true" else "false"
  }

  /** The object `build()` returns. */
  datatype BatchData = BatchData(
    physicalAsset: map<string, JsValue>,
    tracer: map<string, JsValue>,
    validation: map<string, JsValue>,
    compliance: map<string, JsValue>)

  /** `BatchBuilder`: the four sections, each an object of properties. */
  class BatchBuilder {
    var physicalAsset: map<string, JsValue>
    var tracer: map<string, JsValue>
    var validation: map<string, JsValue>
    var compliance: map<string, JsValue>

    /** Every section has exactly the properties the constructor gives it. */
    ghost predicate Valid()
      reads this
    {
      && physicalAsset.Keys == PhysicalAssetDefaults.Keys && tracer.Keys == TracerDefaults.Keys
      && validation.Keys == ValidationDefaults.Keys && compliance.Keys == ComplianceDefaults.Keys
    }

    /** A new builder holds the defaults: '' everywhere except weight '0', tracerAdded 'false' and inspector 'Self-Validation'. */
    constructor()
      ensures physicalAsset == PhysicalAssetDefaults && tracer == TracerDefaults
      ensures validation == ValidationDefaults && compliance == ComplianceDefaults
      ensures Valid()
    {
      physicalAsset := PhysicalAssetDefaults;
      tracer := TracerDefaults;
      validation := ValidationDefaults;
      compliance := ComplianceDefaults;
    }

    /** `setAssetId(assetId)` */
    method SetAssetId(assetId: JsValue)
      requires Valid()
      modifies this
      ensures Valid()
      ensures physicalAsset == old(physicalAsset)["assetId" := assetId]
      ensures unchanged(this`tracer, this`validation, this`compliance)
    {
      physicalAsset := physicalAsset["assetId" := assetId];
    }

    /** `setBatchNumber(batchNumber)` */
    method SetBatchNumber(batchNumber: JsValue)
      requires Valid()
      modifies this
      ensures Valid()
      ensures physicalAsset == old(physicalAsset)["batchNumber" := batchNumber]
      ensures unchanged(this`tracer, this`validation, this`compliance)
    {
      physicalAsset := physicalAsset["batchNumber" := batchNumber];
    }

    /** `setProductionDate(date)` */
    method SetProductionDate(date: JsValue)
      requires Valid()
      modifies this
      ensures Valid()
      ensures physicalAsset == old(physicalAsset)["productionDate" := date]
      ensures unchanged(this`tracer, this`validation, this`compliance)
    {
      physicalAsset := physicalAsset["productionDate" := date];
    }

    /** `setMaterial(material)` */
    method SetMaterial(material: JsValue)
      requires Valid()
      modifies this
      ensures Valid()
      ensures physicalAsset == old(physicalAsset)["material" := material]
      ensures unchanged(this`tracer, this`validation, this`compliance)
    {
      physicalAsset := physicalAsset["material" := material];
    }

    /** `setComposition(composition)` */
    method SetComposition(composition: JsValue)
      requires Valid()
      modifies this
      ensures Valid()
      ensures physicalAsset == old(physicalAsset)["composition" := composition]
      ensures unchanged(this`tracer, this`validation, this`compliance)
    {
      physicalAsset := physicalAsset["composition" := composition];
    }

    /** `setProductionFacility(facility)` */
    method SetProductionFacility(facility: JsValue)
      requires Valid()
      modifies this
      ensures Valid()
      ensures physicalAsset == old(physicalAsset)["productionFacility" := facility]
      ensures unchanged(this`tracer, this`validation, this`compliance)
    {
      physicalAsset := physicalAsset["productionFacility" := facility];
    }

    /** `setSustainableClaims(claims)` */
    method SetSustainableClaims(claims: JsValue)
      requires Valid()
      modifies this
      ensures Valid()
      ensures physicalAsset == old(physicalAsset)["sustainableClaims" := claims]
      ensures unchanged(this`tracer, this`validation, this`compliance)
    {
      physicalAsset := physicalAsset["sustainableClaims" := claims];
    }

    /** `setExpiryDate(date)` */
    method SetExpiryDate(date: JsValue)
      requires Valid()
      modifies this
      ensures Valid()
      ensures physicalAsset == old(physicalAsset)["expiryDate" := date]
      ensures unchanged(this`tracer, this`validation, this`compliance)
    {
      physicalAsset := physicalAsset["expiryDate" := date];
    }

    /** `setTokenType(tokenType)` */
    method SetTokenType(tokenType: JsValue)
      requires Valid()
      modifies this
      ensures Valid()
      ensures physicalAsset == old(physicalAsset)["tokenType" := tokenType]
      ensures unchanged(this`tracer, this`validation, this`compliance)
    {
      physicalAsset := physicalAsset["tokenType" := tokenType];
    }

    /** `setMaterialSpec(spec)` */
    method SetMaterialSpec(spec: JsValue)
      requires Valid()
      modifies this
      ensures Valid()
      ensures physicalAsset == old(physicalAsset)["materialSpec" := spec]
      ensures unchanged(this`tracer, this`validation, this`compliance)
    {
      physicalAsset := physicalAsset["materialSpec" := spec];
    }

    /** `setWetProcessing(value)` */
    method SetWetProcessing(value: JsValue)
      requires Valid()
      modifies this
      ensures Valid()
      ensures physicalAsset == old(physicalAsset)["wetProcessing" := value]
      ensures unchanged(this`tracer, this`validation, this`compliance)
    {
      physicalAsset := physicalAsset["wetProcessing" := value];
    }

    /** `setTracerType(tracerType)` */
    method SetTracerType(tracerType: JsValue)
      requires Valid()
      modifies this
      ensures Valid()
      ensures tracer == old(tracer)["tracerType" := tracerType]
      ensures unchanged(this`physicalAsset, this`validation, this`compliance)
    {
      tracer := tracer["tracerType" := tracerType];
    }

    /** `setHarvestDate(date)` */
    method SetHarvestDate(date: JsValue)
      requires Valid()
      modifies this
      ensures Valid()
      ensures tracer == old(tracer)["harvestDate" := date]
      ensures unchanged(this`physicalAsset, this`validation, this`compliance)
    {
      tracer := tracer["harvestDate" := date];
    }

    /** `setSupplier(supplier)` */
    method SetSupplier(supplier: JsValue)
      requires Valid()
      modifies this
      ensures Valid()
      ensures tracer == old(tracer)["supplier" := supplier]
      ensures unchanged(this`physicalAsset, this`validation, this`compliance)
    {
      tracer := tracer["supplier" := supplier];
    }

    /** `setCountry(country)` */
    method SetCountry(country: JsValue)
      requires Valid()
      modifies this
      ensures Valid()
      ensures tracer == old(tracer)["country" := country]
      ensures unchanged(this`physicalAsset, this`validation, this`compliance)
    {
      tracer := tracer["country" := country];
    }

    /** `setFarmLocation(location)` */
    method SetFarmLocation(location: JsValue)
      requires Valid()
      modifies this
      ensures Valid()
      ensures tracer == old(tracer)["farmLocation" := location]
      ensures unchanged(this`physicalAsset, this`validation, this`compliance)
    {
      tracer := tracer["farmLocation" := location];
    }

    /** `setGpsCoordinates(coords)` */
    method SetGpsCoordinates(coords: JsValue)
      requires Valid()
      modifies this
      ensures Valid()
      ensures tracer == old(tracer)["gpsCoordinates" := coords]
      ensures unchanged(this`physicalAsset, this`validation, this`compliance)
    {
      tracer := tracer["gpsCoordinates" := coords];
    }

    /** `setTracerCertifications(certs)` */
    method SetTracerCertifications(certs: JsValue)
      requires Valid()
      modifies this
      ensures Valid()
      ensures tracer == old(tracer)["certifications" := certs]
      ensures unchanged(this`physicalAsset, this`validation, this`compliance)
    {
      tracer := tracer["certifications" := certs];
    }

    /** `setTracerName(name)` */
    method SetTracerName(name: JsValue)
      requires Valid()
      modifies this
      ensures Valid()
      ensures tracer == old(tracer)["tracerName" := name]
      ensures unchanged(this`physicalAsset, this`validation, this`compliance)
    {
      tracer := tracer["tracerName" := name];
    }

    /** `setTracerDate(date)` */
    method SetTracerDate(date: JsValue)
      requires Valid()
      modifies this
      ensures Valid()
      ensures tracer == old(tracer)["tracerDate" := date]
      ensures unchanged(this`physicalAsset, this`validation, this`compliance)
    {
      tracer := tracer["tracerDate" := date];
    }

    /** `setInspector(inspector)` */
    method SetInspector(inspector: JsValue)
      requires Valid()
      modifies this
      ensures Valid()
      ensures validation == old(validation)["inspector" := inspector]
      ensures unchanged(this`physicalAsset, this`tracer, this`compliance)
    {
      validation := validation["inspector" := inspector];
    }

    /** `setInspectionDate(date)` */
    method SetInspectionDate(date: JsValue)
      requires Valid()
      modifies this
      ensures Valid()
      ensures validation == old(validation)["inspectionDate" := date]
      ensures unchanged(this`physicalAsset, this`tracer, this`compliance)
    {
      validation := validation["inspectionDate" := date];
    }

    /** `setQualityGrade(grade)` */
    method SetQualityGrade(grade: JsValue)
      requires Valid()
      modifies this
      ensures Valid()
      ensures validation == old(validation)["qualityGrade" := grade]
      ensures unchanged(this`physicalAsset, this`tracer, this`compliance)
    {
      validation := validation["qualityGrade" := grade];
    }

    /** `setMoistureContent(content)` */
    method SetMoistureContent(content: JsValue)
      requires Valid()
      modifies this
      ensures Valid()
      ensures validation == old(validation)["moistureContent" := content]
      ensures unchanged(this`physicalAsset, this`tracer, this`compliance)
    {
      validation := validation["moistureContent" := content];
    }

    /** `setContamination(contamination)` */
    method SetContamination(contamination: JsValue)
      requires Valid()
      modifies this
      ensures Valid()
      ensures validation == old(validation)["contamination" := contamination]
      ensures unchanged(this`physicalAsset, this`tracer, this`compliance)
    {
      validation := validation["contamination" := contamination];
    }

    /** `setLabResults(results)` */
    method SetLabResults(results: JsValue)
      requires Valid()
      modifies this
      ensures Valid()
      ensures validation == old(validation)["labResults" := results]
      ensures unchanged(this`physicalAsset, this`tracer, this`compliance)
    {
      validation := validation["labResults" := results];
    }

    /** `setValidationType(validationType)` */
    method SetValidationType(validationType: JsValue)
      requires Valid()
      modifies this
      ensures Valid()
      ensures validation == old(validation)["validationType" := validationType]
      ensures unchanged(this`physicalAsset, this`tracer, this`compliance)
    {
      validation := validation["validationType" := validationType];
    }

    /** `setSustainabilityCert(cert)` */
    method SetSustainabilityCert(cert: JsValue)
      requires Valid()
      modifies this
      ensures Valid()
      ensures compliance == old(compliance)["sustainabilityCert" := cert]
      ensures unchanged(this`physicalAsset, this`tracer, this`validation)
    {
      compliance := compliance["sustainabilityCert" := cert];
    }

    /** `setFairTradeCert(cert)` */
    method SetFairTradeCert(cert: JsValue)
      requires Valid()
      modifies this
      ensures Valid()
      ensures compliance == old(compliance)["fairTradeCert" := cert]
      ensures unchanged(this`physicalAsset, this`tracer, this`validation)
    {
      compliance := compliance["fairTradeCert" := cert];
    }

    /** `setOrganicCert(cert)` */
    method SetOrganicCert(cert: JsValue)
      requires Valid()
      modifies this
      ensures Valid()
      ensures compliance == old(compliance)["organicCert" := cert]
      ensures unchanged(this`physicalAsset, this`tracer, this`validation)
    {
      compliance := compliance["organicCert" := cert];
    }

    /** `setRegulatoryStandards(standards)` */
    method SetRegulatoryStandards(standards: JsValue)
      requires Valid()
      modifies this
      ensures Valid()
      ensures compliance == old(compliance)["regulatoryStandards" := standards]
      ensures unchanged(this`physicalAsset, this`tracer, this`validation)
    {
      compliance := compliance["regulatoryStandards" := standards];
    }

    /** `setCarbonFootprint(footprint)` */
    method SetCarbonFootprint(footprint: JsValue)
      requires Valid()
      modifies this
      ensures Valid()
      ensures compliance == old(compliance)["carbonFootprint" := footprint]
      ensures unchanged(this`physicalAsset, this`tracer, this`validation)
    {
      compliance := compliance["carbonFootprint" := footprint];
    }

    /** `setWaterUsage(usage)` */
    method SetWaterUsage(usage: JsValue)
      requires Valid()
      modifies this
      ensures Valid()
      ensures compliance == old(compliance)["waterUsage" := usage]
      ensures unchanged(this`physicalAsset, this`tracer, this`validation)
    {
      compliance := compliance["waterUsage" := usage];
    }

    /** `setSelectedCerts(certs)` */
    method SetSelectedCerts(certs: JsValue)
      requires Valid()
      modifies this
      ensures Valid()
      ensures compliance == old(compliance)["selectedCerts" := certs]
      ensures unchanged(this`physicalAsset, this`tracer, this`validation)
    {
      compliance := compliance["selectedCerts" := certs];
    }

    /** `setWeight(weight)`: the weight is stored as text. */
    method SetWeight(weight: JsValue)
      requires weight.Num? || weight.Str? || weight.Bool?
      requires Valid()
      modifies this
      ensures Valid()
      ensures physicalAsset == old(physicalAsset)["weight" := Str(ToText(weight))]
      ensures unchanged(this`tracer, this`validation, this`compliance)
    {
      var text := ToText(weight);
      assert "weight" in physicalAsset;
      physicalAsset := physicalAsset["weight" := Str(text)];
    }

    /** `setColor(colorHex, colorName)`: the hex code goes to color and colorHex, the name to mainColor. */
    method SetColor(colorHex: JsValue, colorName: JsValue)
      requires Valid()
      modifies this
      ensures Valid()
      ensures physicalAsset == old(physicalAsset)["color" := colorHex]["colorHex" := colorHex]["mainColor" := colorName]
      ensures unchanged(this`tracer, this`validation, this`compliance)
    {
      physicalAsset := physicalAsset["color" := colorHex];
      physicalAsset := physicalAsset["colorHex" := colorHex];
      physicalAsset := physicalAsset["mainColor" := colorName];
    }

    /** `setValueChain(main, sub = '')`: an omitted sub-process (undefined) is stored as ''. */
    method SetValueChain(main: JsValue, sub: JsValue)
      requires Valid()
      modifies this
      ensures Valid()
      ensures physicalAsset == old(physicalAsset)["valueChainMain" := main]
                                                  ["valueChainSub" := if sub == Undefined then Str("") else sub]
      ensures unchanged(this`tracer, this`validation, this`compliance)
    {
      var s := if sub == Undefined then Str("") else sub;
      physicalAsset := physicalAsset["valueChainMain" := main];
      physicalAsset := physicalAsset["valueChainSub" := s];
    }

    /** `setTracerAdded(added)`: the flag is stored as the text 'true' or 'false'. */
    method SetTracerAdded(added: JsValue)
      requires Valid()
      modifies this
      ensures Valid()
      ensures tracer == old(tracer)["tracerAdded" := Str(if Truthy(added) then "true" else "false")]
      ensures unchanged(this`physicalAsset, this`validation, this`compliance)
    {
      tracer := tracer["tracerAdded" := Str(if Truthy(added) then "true" else "false")];
    }

    /** `build()`: the four sections, each with exactly the properties a new builder has. */
    method Build() returns (data: BatchData)
      requires Valid()
      ensures data == BatchData(physicalAsset, tracer, validation, compliance)
      ensures data.physicalAsset.Keys == PhysicalAssetDefaults.Keys && data.tracer.Keys == TracerDefaults.Keys
      ensures data.validation.Keys == ValidationDefaults.Keys && data.compliance.Keys == ComplianceDefaults.Keys
    {
      data := BatchData(physicalAsset, tracer, validation, compliance);
    }
  }

  /** The batch object submitBatch receives from a built batch. */
  function BatchObject(data: BatchData): (obj: map<string, JsValue>)
    ensures obj.Keys == {"physicalAsset", "tracer", "validation", "compliance"}
  {
    map["physicalAsset" := Obj(data.physicalAsset), "tracer" := Obj(data.tracer),
        "validation" := Obj(data.validation), "compliance" := Obj(data.compliance)]
  }

  /** A built batch is sent with its four sections untouched, plus the credentials when there are any. */
  lemma SubmittedBatchBody(data: BatchData, credentials: Option<Credentials>)
    ensures RequestBody(BatchObject(data), credentials).Keys
         == {"physicalAsset", "tracer", "validation", "compliance"} + (if credentials.Some? then {"username", "password"} else {})
    ensures RequestBody(BatchObject(data), credentials)["physicalAsset"] == Obj(data.physicalAsset)
    ensures RequestBody(BatchObject(data), credentials)["tracer"] == Obj(data.tracer)
  {
  }
}
