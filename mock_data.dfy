/** The static event catalogue the explore views and the drawer read. */
module MockData {
  import opened Wrappers

  datatype Event = Event(
    id: string,
    title: string,
    location: string,
    distance: Option<string>,
    category: Option<string>,
    attendees: int,
    duration: string,
    endTime: string,
    image: Option<string>,
    trending: Option<bool>)

  /** `mockEvents`, in order (image addresses are not carried). */
  const MockEvents: seq<Event> := [
    Event("1", "Morning Coffee Meetup", "Brew & Bean, Downtown", Some("0.8 mi"), Some("Social"), 12, "1 hour", "Ends at 9:30 AM", None, Some(true)),
    Event("2", "Pickup Basketball Game", "Central Park Courts", Some("1.2 mi"), Some("Sports"), 8, "2 hours", "Ends at 7:30 PM", None, None),
    Event("3", "Sunset Beach Yoga", "Venice Beach", Some("2.5 mi"), Some("Wellness"), 15, "1 hour", "Ends at 8:00 PM", None, Some(true)),
    Event("4", "Tech Startup Networking", "Innovation Hub, Silicon Beach", Some("3.1 mi"), Some("Tech"), 28, "3 hours", "Ends at 9:00 PM", None, None),
    Event("5", "Study Group: Computer Science", "Science Library, UC Irvine", Some("0.2 mi"), Some("Tech"), 7, "2 hours", "Ends at 8:00 PM", None, None),
    Event("6", "Anteater Basketball Game", "Bren Events Center, UCI", Some("0.5 mi"), Some("Sports"), 42, "2.5 hours", "Ends at 9:30 PM", None, Some(true)),
    Event("7", "Student Art Exhibition", "Claire Trevor School of Arts", Some("0.7 mi"), Some("Arts"), 19, "3 hours", "Ends at 7:00 PM", None, None),
    Event("8", "Beach Bonfire & Hangout", "Newport Beach", Some("3.2 mi"), Some("Social"), 23, "4 hours", "Ends at 11:00 PM", None, Some(true)),
    Event("9", "Farmers Market Meetup", "University Town Center", Some("0.8 mi"), Some("Social"), 14, "1.5 hours", "Ends at 1:30 PM", None, None),
    Event("10", "Sunset Yoga at Aldrich Park", "Aldrich Park, UC Irvine", Some("0.3 mi"), Some("Wellness"), 20, "1 hour", "Ends at 6:30 PM", None, None),
    Event("11", "Salsa Dance Workshop", "ARC, UC Irvine", Some("0.4 mi"), Some("Arts"), 16, "2 hours", "Ends at 8:00 PM", None, None),
    Event("12", "Movie Night: Marvel Marathon", "Student Center, UCI", Some("0.1 mi"), Some("Social"), 31, "5 hours", "Ends at 11:00 PM", None, Some(true))
  ]
}
