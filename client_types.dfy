/** The client's record types: an event as the pages show it, a booking made
    in the browser, the booking form, and a toast notification. */
module ClientTypes {

  datatype Event = Event(
    id: string,
    title: string,
    description: string,
    date: string,
    time: string,
    location: string,
    city: string,
    category: string,
    price: int,
    capacity: int,
    availableTickets: int,
    image: string,
    organizer: string,
    featured: bool)   // an absent `featured` reads as false

  datatype Booking = Booking(
    id: string,
    eventId: string,
    eventTitle: string,
    eventDate: string,
    eventTime: string,
    eventLocation: string,
    userName: string,
    userEmail: string,
    ticketCount: int,
    totalPrice: int,
    bookedAt: string)

  datatype BookingFormData = BookingFormData(userName: string, userEmail: string, ticketCount: int)

  datatype ToastKind = Success | Error | Info

  datatype Toast = Toast(id: string, message: string, kind: ToastKind)
}
