/** The ISO 15118-20 session data model and its service selection: the
    services the station offers, per category a map from parameter-set id to
    that category's parameters, and the services the vehicle has chosen. */
module D20Session {
  import opened Types

  /** Service categories of ISO 15118-20. */
  datatype ServiceCategory =
    | AC | DC | WPT | DC_ACDP | AC_BPT | DC_BPT | DC_ACDP_BPT | MCS | MCS_BPT
    | Internet | ParkingStatus

  /** The categories whose offers this session keeps. */
  predicate IsSupported(service: ServiceCategory)
  {
    service == DC || service == DC_BPT || service == Internet || service == ParkingStatus
  }

  /** Value-added services, collected in a list rather than replaced. */
  predicate IsValueAdded(service: ServiceCategory)
  {
    service == Internet || service == ParkingStatus
  }

  datatype DcConnector = Core | Extended | Dual2 | Dual4
  datatype ControlMode = Scheduled | Dynamic
  datatype MobilityNeedsMode = ProvidedByEvcc | ProvidedBySecc
  datatype Pricing = NoPricing | AbsolutePricing | PriceLevels
  datatype BptChannel = Unified | Separated
  datatype GeneratorMode = GridFollowing | GridForming
  datatype Protocol = Ftp | Http | Https
  datatype Port = Port20 | Port21 | Port80 | Port443
  datatype IntendedService = VehicleCheckIn | VehicleCheckOut
  datatype ParkingStatusType = AutoInternal | AutoExternal | ManualInternal | ManualExternal

  datatype DcParameterList = DcParameterList(
    connector: DcConnector,
    controlMode: ControlMode,
    mobilityNeedsMode: MobilityNeedsMode,
    pricing: Pricing)

  datatype DcBptParameterList = DcBptParameterList(
    connector: DcConnector,
    controlMode: ControlMode,
    mobilityNeedsMode: MobilityNeedsMode,
    pricing: Pricing,
    bptChannel: BptChannel,
    generatorMode: GeneratorMode)

  datatype InternetParameterList = InternetParameterList(protocol: Protocol, port: Port)

  datatype ParkingParameterList = ParkingParameterList(
    intendedService: IntendedService,
    parkingStatus: ParkingStatusType)

  /** Parameter-set ids are 16-bit unsigned keys, unique per category. */
  datatype OfferedServices = OfferedServices(
    dcParameterList: map<uint16, DcParameterList>,
    dcBptParameterList: map<uint16, DcBptParameterList>,
    internetParameterList: map<uint16, InternetParameterList>,
    parkingParameterList: map<uint16, ParkingParameterList>)

  const NO_OFFERS: OfferedServices := OfferedServices(map[], map[], map[], map[])

  /** The chosen energy-transfer service with the fields copied from its
      offer; the bidirectional fields are only present for DC_BPT. */
  datatype SelectedServiceParameters = SelectedServiceParameters(
    selectedEnergyService: ServiceCategory,
    connector: DcConnector,
    controlMode: ControlMode,
    mobilityNeedsMode: MobilityNeedsMode,
    pricing: Pricing,
    bptChannel: Option<BptChannel>,
    generatorMode: Option<GeneratorMode>)

  /** The chosen value-added services and the fields copied from them. */
  datatype SelectedVasServices = SelectedVasServices(
    vasServices: seq<ServiceCategory>,
    internetPort: Option<Port>,
    internetProtocol: Option<Protocol>,
    parkingIntendedService: Option<IntendedService>,
    parkingStatus: Option<ParkingStatusType>)

  const NO_VAS: SelectedVasServices := SelectedVasServices([], None, None, None, None)

  /** The selection state of a session: `services` is None while it still
      holds its default-constructed value. */
  datatype Selection = Selection(services: Option<SelectedServiceParameters>, vas: SelectedVasServices)

  /** The key a signed 16-bit id denotes once converted to the unsigned key
      type of the maps (modulo 2^16). */
  function Int16ToKey(id: int16): (key: uint16)
    ensures key % 0x1_0000 == id % 0x1_0000
  {
    if id < 0 then id + 0x1_0000 else id
  }

  /** The signed 16-bit value of an unsigned id (two's complement). */
  function KeyToInt16(key: uint16): (id: int16)
    ensures id % 0x1_0000 == key % 0x1_0000
  {
    if key < 0x8000 then key else key - 0x1_0000
  }

  /** Passing an unsigned id through the signed parameter loses nothing:
      the lookup sees the same key, and ids below 2^15 are unchanged. */
  lemma KeyRoundTrip(key: uint16, id: int16)
    ensures Int16ToKey(KeyToInt16(key)) == key
    ensures KeyToInt16(Int16ToKey(id)) == id
    ensures key < 0x8000 ==> KeyToInt16(key) == key
  {
  }

  /** `id` is offered for `service`. */
  predicate Offered(offered: OfferedServices, service: ServiceCategory, id: uint16)
  {
    match service
    case DC => id in offered.dcParameterList
    case DC_BPT => id in offered.dcBptParameterList
    case Internet => id in offered.internetParameterList
    case ParkingStatus => id in offered.parkingParameterList
    case _ => false
  }

  /** The selection of a DC offer. */
  function FromDcOffer(p: DcParameterList): (s: SelectedServiceParameters)
    ensures s.selectedEnergyService == DC && s.bptChannel == None && s.generatorMode == None
  {
    SelectedServiceParameters(DC, p.connector, p.controlMode, p.mobilityNeedsMode, p.pricing, None, None)
  }

  /** The selection of a DC_BPT offer. */
  function FromDcBptOffer(p: DcBptParameterList): (s: SelectedServiceParameters)
    ensures s.selectedEnergyService == DC_BPT && s.bptChannel == Some(p.bptChannel)
    ensures s.generatorMode == Some(p.generatorMode)
  {
    SelectedServiceParameters(DC_BPT, p.connector, p.controlMode, p.mobilityNeedsMode, p.pricing,
                              Some(p.bptChannel), Some(p.generatorMode))
  }

  /** The selection the session holds after selected_service_parameters(service, id). */
  function Select(offered: OfferedServices, s: Selection, service: ServiceCategory, id: uint16): (r: Selection)
    ensures !Offered(offered, service, id) ==> r == s
    ensures !IsValueAdded(service) ==> r.vas == s.vas
    ensures IsValueAdded(service) ==> r.services == s.services
  {
    match service
    case DC =>
      if id in offered.dcParameterList then s.(services := Some(FromDcOffer(offered.dcParameterList[id]))) else s
    case DC_BPT =>
      if id in offered.dcBptParameterList then s.(services := Some(FromDcBptOffer(offered.dcBptParameterList[id])))
      else s
    case Internet =>
      if id in offered.internetParameterList then
        var p := offered.internetParameterList[id];
        s.(vas := s.vas.(vasServices := s.vas.vasServices + [Internet],
                         internetPort := Some(p.port), internetProtocol := Some(p.protocol)))
      else s
    case ParkingStatus =>
      if id in offered.parkingParameterList then
        var p := offered.parkingParameterList[id];
        s.(vas := s.vas.(vasServices := s.vas.vasServices + [ParkingStatus],
                         parkingIntendedService := Some(p.intendedService), parkingStatus := Some(p.parkingStatus)))
      else s
    case _ => s
  }

  /** Selecting an offered DC or DC_BPT id replaces the energy service by that
      offer, with every field copied from it. */
  lemma SelectEnergyServiceCopiesOffer(offered: OfferedServices, s: Selection, service: ServiceCategory, id: uint16)
    requires Offered(offered, service, id) && (service == DC || service == DC_BPT)
    ensures var r := Select(offered, s, service, id);
            && r.services.Some?
            && r.services.value.selectedEnergyService == service
            && (service == DC ==>
                  var p := offered.dcParameterList[id];
                  && r.services.value.connector == p.connector
                  && r.services.value.controlMode == p.controlMode
                  && r.services.value.mobilityNeedsMode == p.mobilityNeedsMode
                  && r.services.value.pricing == p.pricing)
            && (service == DC_BPT ==>
                  var p := offered.dcBptParameterList[id];
                  && r.services.value.connector == p.connector
                  && r.services.value.controlMode == p.controlMode
                  && r.services.value.mobilityNeedsMode == p.mobilityNeedsMode
                  && r.services.value.pricing == p.pricing
                  && r.services.value.bptChannel == Some(p.bptChannel)
                  && r.services.value.generatorMode == Some(p.generatorMode))
  {
  }

  /** Selecting an offered value-added service appends exactly that
      category, keeps every earlier entry, and copies the offer's fields;
      the other category's fields are kept. */
  lemma SelectValueAddedAppends(offered: OfferedServices, s: Selection, service: ServiceCategory, id: uint16)
    requires Offered(offered, service, id) && IsValueAdded(service)
    ensures var r := Select(offered, s, service, id);
            && r.vas.vasServices == s.vas.vasServices + [service]
            && (service == Internet ==>
                  && r.vas.internetPort == Some(offered.internetParameterList[id].port)
                  && r.vas.internetProtocol == Some(offered.internetParameterList[id].protocol)
                  && r.vas.parkingIntendedService == s.vas.parkingIntendedService
                  && r.vas.parkingStatus == s.vas.parkingStatus)
            && (service == ParkingStatus ==>
                  && r.vas.parkingIntendedService == Some(offered.parkingParameterList[id].intendedService)
                  && r.vas.parkingStatus == Some(offered.parkingParameterList[id].parkingStatus)
                  && r.vas.internetPort == s.vas.internetPort
                  && r.vas.internetProtocol == s.vas.internetProtocol)
  {
  }

  /** For a value-added service the selection changes exactly when the id is
      offered; for an energy service it can only change when the id is
      offered, and then it becomes that offer. */
  lemma SelectChangesOnlyWhenOffered(offered: OfferedServices, s: Selection, service: ServiceCategory, id: uint16)
    ensures IsValueAdded(service) ==> (Select(offered, s, service, id) != s <==> Offered(offered, service, id))
    ensures Select(offered, s, service, id) != s ==> Offered(offered, service, id)
  {
    if IsValueAdded(service) && Offered(offered, service, id) {
      var r := Select(offered, s, service, id);
      assert |r.vas.vasServices| == |s.vas.vasServices| + 1;
    }
  }

  /** Re-selecting the same energy service is idempotent: it overwrites and
      does not merge. */
  lemma EnergyReselectionIsIdempotent(offered: OfferedServices, s: Selection, service: ServiceCategory, id: uint16)
    requires !IsValueAdded(service)
    ensures Select(offered, Select(offered, s, service, id), service, id) == Select(offered, s, service, id)
  {
  }

  /** Selecting the same value-added service twice lists it twice: the list
      is not deduplicated. */
  lemma ValueAddedReselectionDuplicates(offered: OfferedServices, s: Selection, service: ServiceCategory, id: uint16)
    requires IsValueAdded(service) && Offered(offered, service, id)
    ensures Select(offered, Select(offered, s, service, id), service, id).vas.vasServices
         == s.vas.vasServices + [service, service]
  {
    SelectValueAddedAppends(offered, s, service, id);
    SelectValueAddedAppends(offered, Select(offered, s, service, id), service, id);
  }

  /** A session with one DC offer at id 5: selecting 5 takes that offer,
      selecting 99 afterwards changes nothing. */
  lemma DcSelectionScenario(p: DcParameterList)
    ensures var offered := NO_OFFERS.(dcParameterList := map[5 := p]);
            var first := Select(offered, Selection(None, NO_VAS), DC, 5);
            && first.services == Some(FromDcOffer(p))
            && first.vas == NO_VAS
            && Select(offered, first, DC, 99) == first
  {
  }

  /** A session: its 16-byte identity, the offers it works from and what has
      been selected from them. */
  class Session {
    const id: array<uint8>
    var offeredServices: OfferedServices
    var selectedServices: Option<SelectedServiceParameters>
    var selectedVasServices: SelectedVasServices

    /** The session without offers or selection; `draws` are the 16 bytes
        the random generator yields. */
    constructor (draws: seq<uint8>)
      requires |draws| == 16
      ensures fresh(id) && id[..] == draws
      ensures offeredServices == NO_OFFERS && selectedServices == None && selectedVasServices == NO_VAS
    {
      var filled := FillId(draws);
      id := filled;
      offeredServices := NO_OFFERS;
      selectedServices := None;
      selectedVasServices := NO_VAS;
    }

    /** The session created with a preconfigured selection. */
    constructor WithSelection(draws: seq<uint8>, serviceParameters: SelectedServiceParameters)
      requires |draws| == 16
      ensures fresh(id) && id[..] == draws
      ensures offeredServices == NO_OFFERS && selectedServices == Some(serviceParameters)
      ensures selectedVasServices == NO_VAS
    {
      var filled := FillId(draws);
      id := filled;
      offeredServices := NO_OFFERS;
      selectedServices := Some(serviceParameters);
      selectedVasServices := NO_VAS;
    }

    /** The session created with the services a station offered. */
    constructor WithOffers(draws: seq<uint8>, services: OfferedServices)
      requires |draws| == 16
      ensures fresh(id) && id[..] == draws
      ensures offeredServices == services && selectedServices == None && selectedVasServices == NO_VAS
    {
      var filled := FillId(draws);
      id := filled;
      offeredServices := services;
      selectedServices := None;
      selectedVasServices := NO_VAS;
    }

    function CurrentSelection(): (selection: Selection)
      reads this
    {
      Selection(selectedServices, selectedVasServices)
    }

    /** Whether `id` (a signed 16-bit value, looked up as an unsigned key)
        is offered for `service`; false for every category outside DC,
        DC_BPT, Internet and ParkingStatus. */
    method FindParameterSetId(service: ServiceCategory, parameterSetId: int16) returns (found: bool)
      ensures service == DC ==> (found <==> Int16ToKey(parameterSetId) in offeredServices.dcParameterList)
      ensures service == DC_BPT ==> (found <==> Int16ToKey(parameterSetId) in offeredServices.dcBptParameterList)
      ensures service == Internet ==>
                (found <==> Int16ToKey(parameterSetId) in offeredServices.internetParameterList)
      ensures service == ParkingStatus ==>
                (found <==> Int16ToKey(parameterSetId) in offeredServices.parkingParameterList)
      ensures !IsSupported(service) ==> !found
    {
      var key := Int16ToKey(parameterSetId);
      match service {
        case DC => found := key in offeredServices.dcParameterList;
        case DC_BPT => found := key in offeredServices.dcBptParameterList;
        case Internet => found := key in offeredServices.internetParameterList;
        case ParkingStatus => found := key in offeredServices.parkingParameterList;
        case _ => found := false;
      }
    }

    /** selected_service_parameters: takes the offer `id` of `service` into
        the selection, leaving the offers alone. */
    method SelectServiceParameters(service: ServiceCategory, parameterSetId: uint16)
      modifies this
      ensures offeredServices == old(offeredServices)
      ensures CurrentSelection() == Select(offeredServices, old(CurrentSelection()), service, parameterSetId)
    {
      match service {
        case DC =>
          if parameterSetId in offeredServices.dcParameterList {
            var parameters := offeredServices.dcParameterList[parameterSetId];
            selectedServices := Some(FromDcOffer(parameters));
          }
        case DC_BPT =>
          if parameterSetId in offeredServices.dcBptParameterList {
            var parameters := offeredServices.dcBptParameterList[parameterSetId];
            selectedServices := Some(FromDcBptOffer(parameters));
          }
        case Internet =>
          if parameterSetId in offeredServices.internetParameterList {
            selectedVasServices := selectedVasServices.(vasServices := selectedVasServices.vasServices + [Internet]);
            var parameters := offeredServices.internetParameterList[parameterSetId];
            selectedVasServices := selectedVasServices.(internetPort := Some(parameters.port));
            selectedVasServices := selectedVasServices.(internetProtocol := Some(parameters.protocol));
          }
        case ParkingStatus =>
          if parameterSetId in offeredServices.parkingParameterList {
            selectedVasServices :=
              selectedVasServices.(vasServices := selectedVasServices.vasServices + [ParkingStatus]);
            var parameters := offeredServices.parkingParameterList[parameterSetId];
            selectedVasServices := selectedVasServices.(parkingIntendedService := Some(parameters.intendedService));
            selectedVasServices := selectedVasServices.(parkingStatus := Some(parameters.parkingStatus));
          }
        case _ =>
      }
    }
  }

  /** Fills a fresh 16-byte identity, one generator draw per byte. */
  method FillId(draws: seq<uint8>) returns (id: array<uint8>)
    requires |draws| == 16
    ensures fresh(id) && id[..] == draws
  {
    id := new uint8[16];
    for i := 0 to 16
      invariant id[..i] == draws[..i]
    {
      id[i] := draws[i];
    }
  }

  /** The lookup with a signed id and the selection with the unsigned id it
      stands for agree: the selection changes only if the lookup succeeds. */
  method FindThenSelect(session: Session, service: ServiceCategory, parameterSetId: uint16)
    returns (found: bool)
    modifies session
    ensures found <==> Offered(session.offeredServices, service, parameterSetId)
    ensures !found ==> session.CurrentSelection() == old(session.CurrentSelection())
  {
    KeyRoundTrip(parameterSetId, 0);
    found := session.FindParameterSetId(service, KeyToInt16(parameterSetId));
    session.SelectServiceParameters(service, parameterSetId);
  }
}
