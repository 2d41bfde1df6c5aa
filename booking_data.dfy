/** The booking record shared by the booking route, the notification mails, the
  * booking form and the admin dashboard. */
module BookingData {
  import opened Common

  /** One entry of a booking's `additionalServices`: `{slug, name, type}`. */
  datatype ServiceRef = ServiceRef(slug: string, name: string, kind: string)

  /** The JSON body of a booking POST; every field may be absent. */
  datatype BookingRequest = BookingRequest(
    name: Option<string>,
    email: Option<string>,
    phone: Option<string>,
    service: Option<string>,
    serviceName: Option<string>,
    serviceType: Option<string>,
    additionalServices: Option<seq<ServiceRef>>,
    vehicleBrand: Option<string>,
    vehicleModel: Option<string>,
    bookingDate: Option<string>,
    bookingTime: Option<string>,
    notes: Option<string>)

  /** A stored booking. `service` is the slug of the primary service; the timestamps
    * are clock readings. */
  datatype Booking = Booking(
    name: string,
    email: string,
    phone: string,
    service: string,
    serviceName: string,
    serviceType: string,
    additionalServices: seq<ServiceRef>,
    vehicleBrand: string,
    vehicleModel: string,
    bookingDate: string,
    bookingTime: string,
    notes: string,
    status: string,
    createdAt: int,
    updatedAt: int)
}
