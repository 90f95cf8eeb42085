/** Received events (internal/hmcollector), shared by decoding and publication. */
module Events {
  import opened Basics

  datatype Sensor = Sensor(physicalContext: string, timestamp: string, data: string)

  /** `oem` is the optional Cray part, `origin` the identifier in OriginOfCondition; `data` stands for the fields
      that are passed through. */
  datatype Event = Event(messageId: string, oem: Option<seq<Sensor>>, origin: Option<string>, data: string)

  datatype Envelope = Envelope(context: string, data: string)

  datatype Payload = Payload(envelope: Envelope, events: seq<Event>)
}
