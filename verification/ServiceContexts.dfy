/** The content of a SIMCRS_ServiceContext: references to the other services, and who owns them. */
module ServiceContexts {
  import opened Options

  /** A shared reference to one of the other services. */
  type ServiceRef = nat

  /** `ownsStdair` is None until it is written: the main constructor leaves it uninitialised. */
  datatype ServiceContext = ServiceContext(
    stdair: Option<ServiceRef>,
    ownsStdair: Option<bool>,
    sevmgr: Option<ServiceRef>,
    ownsSevmgr: bool,
    airtsp: Option<ServiceRef>,
    airinv: Option<ServiceRef>,
    simfqt: Option<ServiceRef>,
    crsCode: string)

  function NewContext(crsCode: string): ServiceContext {
    ServiceContext(None, None, None, true, None, None, None, crsCode)
  }
}
