/** The records the profile service works on: the stored entity and the transfer objects. */
module ProfileModel {
  import opened Common

  /** `LocalDateTime` values; the clock is a parameter of every operation that reads it. */
  type Time = int

  /** A stored account (`ProfileEntity`). `id` is assigned by the repository on first save. */
  datatype ProfileEntity = ProfileEntity(
    id: Option<nat>,
    fullName: string,
    email: string,
    password: string,            // the encoder's output
    profileImageUrl: Option<string>,
    isActive: bool,
    activationToken: Option<string>,
    createdAt: Time,
    updatedAt: Time)

  /** The profile as it crosses the HTTP boundary (`ProfileDTO`): request body and response body. */
  datatype ProfileDTO = ProfileDTO(
    id: Option<nat>,
    fullName: string,
    email: string,
    password: Option<string>,
    profileImageUrl: Option<string>,
    createdAt: Option<Time>,
    updatedAt: Option<Time>,
    isActive: Option<bool>)

  /** A login request body (`AuthDTO`). */
  datatype AuthDTO = AuthDTO(email: string, password: string)
}
