/**
 * The application-wide state (context/AppContext.tsx): the signed-in user
 * with a role, the colour theme, and the role-hierarchy permission check.
 * What the browser storage holds is passed in as parameters.
 */
module AppContext {
  import opened Types

  /**
   * The three roles, plus whatever other text a stored role may hold: the
   * stored value is read back with a cast, not checked.
   */
  datatype Role = Admin | Operador | Visualizador | Unrecognised(text: string)

  predicate Known(r: Role)
  {
    !r.Unrecognised?
  }

  datatype User = User(username: string, role: Role)

  datatype Theme = Dark | Light

  /** `roleHierarchy`: admin 3, operador 2, visualizador 1. */
  function Rank(r: Role): (n: nat)
    requires Known(r)
    ensures 1 <= n <= 3
  {
    match r
    case Admin => 3
    case Operador => 2
    case Visualizador => 1
  }

  /**
   * `hasPermission(required)`: no one is signed in, or the signed-in role
   * is one the table does not list, gives false; otherwise the user's rank
   * must reach the required one.
   */
  function HasPermission(user: Option<User>, required: Role): (ok: bool)
    requires Known(required)
    ensures ok ==> user.Some? && Known(user.value.role)
    ensures user.Some? && Known(user.value.role) ==> (ok <==> Rank(user.value.role) >= Rank(required))
  {
    match user
    case None => false
    case Some(u) => if u.role.Unrecognised? then false else Rank(u.role) >= Rank(required)
  }

  /** Nobody signed in: nothing is permitted. */
  lemma NoUserNoPermission(required: Role)
    requires Known(required)
    ensures !HasPermission(None, required)
  {
  }

  /** A user always holds the permission of their own (known) role. */
  lemma OwnRole(u: User)
    requires Known(u.role)
    ensures HasPermission(Some(u), u.role)
  {
  }

  /** An admin holds every permission. */
  lemma AdminHasAll(name: string, required: Role)
    requires Known(required)
    ensures HasPermission(Some(User(name, Admin)), required)
  {
  }

  /** Permissions are nested: holding a role's permission gives that of every lower role. */
  lemma PermissionsNested(user: Option<User>, higher: Role, lower: Role)
    requires Known(higher) && Known(lower)
    requires Rank(lower) <= Rank(higher)
    requires HasPermission(user, higher)
    ensures HasPermission(user, lower)
  {
  }

  /** A visualizador holds no permission above its own. */
  lemma VisualizadorOnlyViews(name: string, required: Role)
    requires Known(required) && required != Visualizador
    ensures !HasPermission(Some(User(name, Visualizador)), required)
  {
  }

  /** The theme `toggleTheme` switches to. */
  function Toggled(t: Theme): (r: Theme)
    ensures r != t
  {
    if t == Dark then Light else Dark
  }

  /** Toggling twice restores the theme. */
  lemma ToggleTwice(t: Theme)
    ensures Toggled(Toggled(t)) == t
  {
  }

  /** The text the role is stored under. */
  function RoleText(r: Role): string
  {
    match r
    case Admin => "admin"
    case Operador => "operador"
    case Visualizador => "visualizador"
    case Unrecognised(text) => text
  }

  /** The role a stored text is read back as. */
  function ReadRole(text: string): (r: Role)
    ensures RoleText(r) == text
  {
    if text == "admin" then Admin
    else if text == "operador" then Operador
    else if text == "visualizador" then Visualizador
    else Unrecognised(text)
  }

  /**
   * The user restored on start-up from the stored name and role: none
   * unless a non-empty name is stored; a missing or empty role reads as
   * visualizador.
   */
  function LoadUser(storedUser: Option<string>, storedRole: Option<string>): (u: Option<User>)
    ensures u.Some? <==> storedUser.Some? && storedUser.value != ""
    ensures u.Some? ==> u.value.username == storedUser.value
    ensures u.Some? && (storedRole.None? || storedRole.value == "") ==> u.value.role == Visualizador
    ensures u.Some? && storedRole.Some? && storedRole.value != "" ==> RoleText(u.value.role) == storedRole.value
  {
    var role := if storedRole.Some? && storedRole.value != "" then ReadRole(storedRole.value) else Visualizador;
    if storedUser.Some? && storedUser.value != "" then Some(User(storedUser.value, role)) else None
  }

  /** What `setUser` leaves in storage: the name and the role, or neither. */
  function Stored(u: Option<User>): (Option<string>, Option<string>)
  {
    match u
    case Some(user) => (Some(user.username), Some(RoleText(user.role)))
    case None => (None, None)
  }

  /**
   * Restoring what `setUser` stored gives the user back, when the name is
   * non-empty and the role one of the three; clearing the user leaves
   * nothing to restore.
   */
  lemma StoreThenLoad(u: Option<User>)
    requires u.Some? ==> u.value.username != "" && Known(u.value.role)
    ensures LoadUser(Stored(u).0, Stored(u).1) == u
  {
  }

  /** The provider's user and theme state. */
  class AppState {
    var user: Option<User>
    var theme: Theme

    constructor ()
      ensures user == None && theme == Dark
    {
      user := None;
      theme := Dark;
    }

    /** The start-up effect: a stored, non-empty name signs that user in; otherwise nothing changes. */
    method RestoreUser(storedUser: Option<string>, storedRole: Option<string>)
      modifies this`user
      ensures LoadUser(storedUser, storedRole).Some? ==> user == LoadUser(storedUser, storedRole)
      ensures LoadUser(storedUser, storedRole).None? ==> user == old(user)
    {
      if storedUser.Some? && storedUser.value != "" {
        var role := if storedRole.Some? && storedRole.value != "" then ReadRole(storedRole.value) else Visualizador;
        user := Some(User(storedUser.value, role));
      }
    }

    method SetUser(u: Option<User>)
      modifies this`user
      ensures user == u
    {
      user := u;
    }

    method SetTheme(t: Theme)
      modifies this`theme
      ensures theme == t
    {
      theme := t;
    }

    method ToggleTheme()
      modifies this`theme
      ensures theme == Toggled(old(theme))
    {
      theme := if theme == Dark then Light else Dark;
    }
  }
}
