/** The CRM as the sync sees it: the shape of a contact-list page and the
    request `fetchHubSpotContacts` sends for a given offset. */
module HubSpot {
  import opened Js

  /** Contacts asked for per page. */
  const PageSize: nat := 100

  /** Contact properties asked for with every page. */
  const RequestedProperties: seq<string> := ["firstname", "lastname", "email", "date_of_birth"]

  /** One entry of an identity profile; `kind` is its `type` tag. */
  datatype Identity = Identity(kind: Option<string>, value: Option<string>)

  /** An identity profile; `identities` may be missing. */
  datatype Profile = Profile(identities: Option<seq<Identity>>)

  /** The `value`s of the `firstname`, `lastname` and `date_of_birth` properties. */
  datatype Properties = Properties(firstname: Option<string>, lastname: Option<string>, dateOfBirth: Option<string>)

  /** A contact record as the list endpoint returns it; either part may be missing. */
  datatype Contact = Contact(properties: Option<Properties>, identityProfiles: Option<seq<Profile>>)

  /** The body of one page: its contacts (the field may be missing), the
      truthiness of `has-more`, and `vid-offset`. */
  datatype PageData = PageData(contacts: Option<seq<Contact>>, hasMore: bool, vidOffset: Option<int>)

  /** The outcome of one fetch. */
  datatype Response = Fetched(data: PageData) | FetchFailed

  /** The query parameters of one fetch. */
  datatype Request = Request(count: nat, properties: seq<string>, vidOffset: Option<int>)

  /** The request for a page: the offset is sent only when it is truthy. */
  function FetchRequest(vidOffset: Option<int>): (r: Request)
    ensures r.count == PageSize && r.properties == RequestedProperties
    ensures r.vidOffset.Some? <==> TruthyInt(vidOffset)
    ensures r.vidOffset.Some? ==> r.vidOffset == vidOffset
  {
    Request(PageSize, RequestedProperties, if TruthyInt(vidOffset) then vidOffset else None)
  }
}
