/** One row of the admin's user table: the name and handle shown for a
    profile, the role badge, and the role the "Toggle Role" button asks for. */
module AdminUsers {
  import opened Common
  import opened Sequences

  const AdminRole := "admin"
  const UserRole := "user"
  const AnonymousName := "Anonymous User"
  /** How many characters of the id the fallback handle shows. */
  const HandleIdLength: nat := 8

  /** A profile row as the page reads it. */
  datatype Profile = Profile(id: string, fullName: Option<string>, username: Option<string>, role: string)

  /** The badge's variant and icon. */
  datatype Variant = DefaultVariant | SecondaryVariant
  datatype Icon = ShieldIcon | UserIcon
  datatype Badge = Badge(variant: Variant, icon: Icon, text: string)

  /** The role the toggle requests: "admin" becomes "user", every other
      role (including an unknown one) becomes "admin". */
  function ToggledRole(role: string): (r: string)
    ensures role == AdminRole ==> r == UserRole
    ensures role != AdminRole ==> r == AdminRole
    ensures r == UserRole || r == AdminRole
    ensures r != role || role !in {UserRole, AdminRole}
  {
    if role == AdminRole then UserRole else AdminRole
  }

  /** On the two known roles the toggle is an involution; an unknown role
      is not restored but mapped into the known ones. */
  lemma ToggleRoleTwice(role: string)
    ensures ToggledRole(ToggledRole(role)) == role <==> role == UserRole || role == AdminRole
  {
  }

  /** The request the button sends: the row's own id and the toggled role. */
  function RoleToggleRequest(p: Profile): (req: (string, string))
    ensures req.0 == p.id
    ensures req.1 == AdminRole <==> p.role != AdminRole
    ensures req.1 == UserRole <==> p.role == AdminRole
  {
    (p.id, ToggledRole(p.role))
  }

  /** The role badge: the highlighted variant and the shield icon exactly
      for admins, and the role itself as its text. */
  function RoleBadge(role: string): (b: Badge)
    ensures b.variant == DefaultVariant <==> role == AdminRole
    ensures b.icon == ShieldIcon <==> role == AdminRole
    ensures b.text == role
  {
    if role == AdminRole then Badge(DefaultVariant, ShieldIcon, role)
    else Badge(SecondaryVariant, UserIcon, role)
  }

  /** The displayed name: `full_name`, or "Anonymous User" when it is
      `null` or empty. */
  function DisplayName(p: Profile): (n: string)
    ensures n != ""
    ensures p.fullName.Some? && p.fullName.value != "" ==> n == p.fullName.value
    ensures !(p.fullName.Some? && p.fullName.value != "") ==> n == AnonymousName
  {
    OrElse(p.fullName, AnonymousName)
  }

  /** The displayed handle: the username, or "@" followed by the first
      eight characters of the id. */
  function Handle(p: Profile): (h: string)
    ensures h != ""
    ensures p.username.Some? && p.username.value != "" ==> h == p.username.value
    ensures !(p.username.Some? && p.username.value != "") ==>
              && |h| == 1 + Min(HandleIdLength, |p.id|)
              && |h| <= 1 + HandleIdLength
              && h[0] == '@'
              && h[1..] <= p.id
  {
    OrElse(p.username, "@" + Take(p.id, HandleIdLength))
  }
}
