/**
 * The row types of the hosted database as the client sees them (src/lib/supabase.ts).
 * A JavaScript number is a `real`; `T | null` is an `Option<T>`.
 */
module Schema {
  import opened Wrappers

  datatype UserRole = Musician | Band | Venue

  /** A band member; `age` is optional and written `Name (NN)` in the forms. */
  datatype Member = Member(name: string, age: Option<int>)

  /**
   * A profile row. `latitude` and `longitude` are not declared in the
   * interface in src/lib/supabase.ts, but every reader and writer of profiles
   * uses them, so they are fields here.
   */
  datatype Profile = Profile(
    id: string,
    user_id: string,
    role: UserRole,
    display_name: string,
    avatar_url: Option<string>,
    gallery_urls: Option<seq<string>>,
    location: Option<string>,
    latitude: Option<real>,
    longitude: Option<real>,
    bio: Option<string>,
    links: Option<seq<string>>,
    genres: Option<seq<string>>,
    instruments: Option<seq<string>>,
    seeking: Option<seq<string>>,
    influences: Option<seq<string>>,
    age: Option<real>,
    roles: Option<seq<string>>,
    members: Option<seq<Member>>,
    last_active_at: Option<string>,
    created_at: string,
    updated_at: string
  )

  /** An event row. */
  datatype EventRow = EventRow(
    id: string,
    created_by: string,
    name: string,
    description: Option<string>,
    location: Option<string>,
    event_date: string,
    event_time: Option<string>,
    price: Option<string>,
    image_url: Option<string>,
    attendee_count: int,
    created_at: string,
    updated_at: string
  )

  /** The signed-in identity the auth context keeps. */
  datatype AuthUser = AuthUser(id: string, email: string)
}
