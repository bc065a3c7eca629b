/** The booking document schema (api/models/Booking.js): the paths a booking
    has, their types, which are required and which refer to another
    collection, and the predicate a record must satisfy before the database
    accepts it. */
module BookingModel {
  import opened Common

  /** A booking record as it is handed to `Booking.create`. Every path may be
      missing; whether the record is acceptable is `Conforms`. */
  datatype Booking = Booking(
    place: Option<ObjectId>,
    user: Option<ObjectId>,
    checkIn: Option<Date>,
    checkOut: Option<Date>,
    name: Option<string>,
    phone: Option<string>,
    price: Option<int>)

  datatype BookingField = PlaceField | UserField | CheckInField | CheckOutField | NameField | PhoneField | PriceField

  datatype SchemaType = ObjectIdType | DateType | StringType | NumberType

  /** One path of a schema: its type, whether it is required, and the model
      it refers to, if any. */
  datatype SchemaPath = SchemaPath(field: BookingField, kind: SchemaType, required: bool, ref: Option<string>)

  /** The booking schema, path by path. */
  const BookingSchema: seq<SchemaPath> := [
    SchemaPath(PlaceField, ObjectIdType, true, Some("Place")),
    SchemaPath(UserField, ObjectIdType, true, None),
    SchemaPath(CheckInField, DateType, true, None),
    SchemaPath(CheckOutField, DateType, true, None),
    SchemaPath(NameField, StringType, true, None),
    SchemaPath(PhoneField, StringType, true, None),
    SchemaPath(PriceField, NumberType, false, None)
  ]

  /** Whether a path of `b` passes the `required` validator: a value is there,
      and for a string path it is not the empty string. */
  predicate Present(b: Booking, field: BookingField)
  {
    match field
    case PlaceField => b.place.Some?
    case UserField => b.user.Some?
    case CheckInField => b.checkIn.Some?
    case CheckOutField => b.checkOut.Some?
    case NameField => !Blank(b.name)
    case PhoneField => !Blank(b.phone)
    case PriceField => b.price.Some?
  }

  /** A record passes validation when every required path of the schema is present. */
  predicate Conforms(b: Booking)
  {
    forall p :: p in BookingSchema && p.required ==> Present(b, p.field)
  }

  /** The schema's required paths are exactly the place and user ids, both
      dates, and the name and phone strings. */
  lemma ConformsIff(b: Booking)
    ensures Conforms(b) <==>
      && b.place.Some? && b.user.Some?
      && b.checkIn.Some? && b.checkOut.Some?
      && !Blank(b.name) && !Blank(b.phone)
  {
  }

  /** `price` is optional: whether it is there has no bearing on validity. */
  lemma PriceOptional(b: Booking, price: Option<int>)
    ensures Conforms(b.(price := price)) <==> Conforms(b)
  {
  }

  /** The only path that refers to another collection is `place`, and it refers to places. */
  lemma OnlyPlaceIsReference(p: SchemaPath)
    requires p in BookingSchema && p.ref.Some?
    ensures p.field == PlaceField && p.ref == Some("Place") && p.kind == ObjectIdType
  {
  }
}
