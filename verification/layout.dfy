/** The dashboard shell: who counts as an administrator on the client, the
    navigation tabs, and which tab is highlighted. */
module Layout {
  import opened Wrappers
  import Api

  /** The identity claims the session exposes to the page: each claim is
      whatever JSON value the identity provider put there, or absent. */
  datatype Claims = Claims(email: Option<Api.Json>, isAdmin: Option<Api.Json>)

  /** JavaScript truthiness of a JSON value: `null`, `false`, `0` and the
      empty string are falsy; every array and object is truthy. */
  predicate Truthy(v: Api.Json)
  {
    match v
    case JNull => false
    case JBool(b) => b
    case JNum(n) => n != 0
    case JStr(s) => s != ""
    case JArr(_) => true
    case JObj(_) => true
  }

  /** An absent claim reads as `undefined`, which is falsy. */
  predicate ClaimSet(c: Option<Api.Json>)
  {
    c.Some? && Truthy(c.value)
  }

  /** The signed-in user as the auth hook returns it. */
  datatype AuthUser = AuthUser(claims: Option<Claims>)

  /** The one address the client treats as an administrator by name. */
  const OwnerEmail := "badrdiab2020@gmail.com"

  /** Administrator on the client: the `email` claim is strictly equal to
      the owner's address, or the `is_admin` claim is truthy; nobody when
      signed out or without claims. */
  function IsAdmin(user: Option<AuthUser>): (r: bool)
    ensures user.None? || user.value.claims.None? ==> !r
    ensures user.Some? && user.value.claims.Some? ==>
      (r <==> user.value.claims.value.email == Some(Api.JStr(OwnerEmail))
              || ClaimSet(user.value.claims.value.isAdmin))
  {
    match user
    case None => false
    case Some(u) =>
      match u.claims
      case None => false
      case Some(c) => c.email == Some(Api.JStr(OwnerEmail)) || ClaimSet(c.isAdmin)
  }

  /** Any truthy `is_admin` claim shows the Admin tab, even the text
      "false" or the number 1; `false`, `0`, `""` and `null` do not. */
  lemma TruthyClaimsAdmit(email: Option<Api.Json>)
    ensures IsAdmin(Some(AuthUser(Some(Claims(email, Some(Api.JStr("false")))))))
    ensures IsAdmin(Some(AuthUser(Some(Claims(email, Some(Api.JNum(1)))))))
    ensures email.None? ==> !IsAdmin(Some(AuthUser(Some(Claims(email, Some(Api.JBool(false)))))))
    ensures email.None? ==> !IsAdmin(Some(AuthUser(Some(Claims(email, Some(Api.JNum(0)))))))
    ensures email.None? ==> !IsAdmin(Some(AuthUser(Some(Claims(email, Some(Api.JStr("")))))))
    ensures email.None? ==> !IsAdmin(Some(AuthUser(Some(Claims(email, Some(Api.JNull))))))
  {
  }

  datatype Tab = Tab(name: string, path: string)

  const ProfileTab := Tab("Profile", "/dashboard")
  const LinksTab := Tab("Links", "/dashboard/links")
  const NfcTab := Tab("NFC", "/dashboard/nfc")
  const AdminTab := Tab("Admin", "/dashboard/admin")

  /** The navigation: Profile, Links and NFC, and Admin last for administrators. */
  function Tabs(admin: bool): (r: seq<Tab>)
    ensures |r| == if admin then 4 else 3
    ensures r[..3] == [ProfileTab, LinksTab, NfcTab]
    ensures admin ==> r[3] == AdminTab
  {
    var base := [ProfileTab, LinksTab, NfcTab];
    if admin then base + [AdminTab] else base
  }

  /** The Admin tab is shown exactly to administrators. */
  lemma AdminTabOnlyForAdmins(user: Option<AuthUser>)
    ensures AdminTab in Tabs(IsAdmin(user)) <==> IsAdmin(user)
  {
    var r := Tabs(IsAdmin(user));
    if !IsAdmin(user) {
      assert r == [ProfileTab, LinksTab, NfcTab];
    }
  }

  /** A tab is highlighted when the location is exactly its path. */
  predicate IsActive(location: string, t: Tab)
  {
    location == t.path
  }

  /** The positions of the highlighted tabs. */
  function ActiveTabs(location: string, tabs: seq<Tab>): (r: set<int>)
    ensures forall i :: i in r <==> 0 <= i < |tabs| && IsActive(location, tabs[i])
  {
    set i | 0 <= i < |tabs| && IsActive(location, tabs[i])
  }

  /** At most one tab is highlighted, and one is exactly when the location
      is a tab's path; sub-paths such as a link's page highlight none. */
  lemma OneActiveTab(location: string, admin: bool)
    ensures |ActiveTabs(location, Tabs(admin))| <= 1
    ensures |ActiveTabs(location, Tabs(admin))| == 1 <==>
      exists t :: t in Tabs(admin) && t.path == location
  {
    var tabs := Tabs(admin);
    var act := ActiveTabs(location, tabs);
    assert forall i, j :: 0 <= i < j < |tabs| ==> tabs[i].path != tabs[j].path;
    if exists t :: t in tabs && t.path == location {
      var t :| t in tabs && t.path == location;
      var i :| 0 <= i < |tabs| && tabs[i] == t;
      assert act == {i};
    } else {
      assert act == {};
    }
  }
}
