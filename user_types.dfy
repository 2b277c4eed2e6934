/** The user record and its enumerations (timestamps are left out). */
module UserTypes {
  import opened Wrappers

  /** Identifiers handed out by the store; MongoDB's ObjectId in the source. */
  type Id = nat

  datatype Role = Admin | Customer
  datatype Gender = Male | Female | Others

  datatype User = User(
    email: string,
    password: string,
    phone: Option<string>,
    firstName: Option<string>,
    lastName: Option<string>,
    profileUrl: Option<string>,
    gender: Option<Gender>,
    role: Role)
}
