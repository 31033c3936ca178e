/** The part of the user schema the ride workflow depends on: the role. */
module UserModel {

  /** A user is a rider or a driver. */
  datatype Role = Rider | Driver

  /** The string a role is stored as. */
  function RoleName(r: Role): (n: string)
    ensures n == "rider" || n == "driver"
    ensures (n == "rider") <==> r == Rider
  {
    match r
    case Rider => "rider"
    case Driver => "driver"
  }
}
