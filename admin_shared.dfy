/** The admin pages' shared loader (static/js/admin/shared.js): the URL each section is
    fetched from, which static/js/admin-dashboard.js builds the same way, the checks around
    the fetch, the routing of the error, and the guard of `displayData`. The values of the
    status filters are handed in, as the selects hold them. */
module AdminShared {
  import opened Common
  import opened TokenStore

  /** The path each section is fetched from; an unknown section has none. */
  function Endpoint(section: string): string
  {
    match section
    case "suppliers" => "/api/users"
    case "quotations" => "/api/quotations"
    case "orders" => "/api/orders"
    case "products" => "/api/products"
    case _ => ""
  }

  /** The `URLSearchParams` the switch appends, in order. */
  function Params(section: string, quotationStatus: string, orderStatus: string): seq<(string, string)>
  {
    if section == "suppliers" then [("role", "supplier")]
    else if section == "quotations" && quotationStatus != "all" then [("status", quotationStatus)]
    else if section == "orders" && orderStatus != "all" then [("status", orderStatus)]
    else []
  }

  /** `params.toString()`: the `name=value` pairs joined by '&'. */
  function QueryText(params: seq<(string, string)>): (r: string)
    ensures r == "" <==> params == []
  {
    if params == [] then ""
    else if |params| == 1 then params[0].0 + "=" + params[0].1
    else params[0].0 + "=" + params[0].1 + "&" + QueryText(params[1..])
  }

  /** The URL `loadSectionData` fetches: the endpoint, and '?' with the query only when there
      are parameters. */
  function SectionUrl(section: string, quotationStatus: string, orderStatus: string): (r: string)
    ensures section == "suppliers" ==> r == "/api/users?role=supplier"
    ensures section == "quotations" ==>
      r == if quotationStatus == "all" then "/api/quotations" else "/api/quotations?status=" + quotationStatus
    ensures section == "orders" ==>
      r == if orderStatus == "all" then "/api/orders" else "/api/orders?status=" + orderStatus
    ensures section == "products" ==> r == "/api/products"
    ensures section !in {"suppliers", "quotations", "orders", "products"} ==> r == ""
  {
    var query := QueryText(Params(section, quotationStatus, orderStatus));
    Endpoint(section) + (if query != "" then "?" + query else "")
  }

  /** '?' is in the URL exactly when the section has a parameter, as long as the filter
      values hold no '?' of their own. */
  lemma {:induction false} QueryMarkOnlyWithParams(section: string, quotationStatus: string, orderStatus: string)
    requires '?' !in quotationStatus && '?' !in orderStatus
    ensures ('?' in SectionUrl(section, quotationStatus, orderStatus)) <==> Params(section, quotationStatus, orderStatus) != []
  {
    var url := SectionUrl(section, quotationStatus, orderStatus);
    var e := Endpoint(section);
    assert '?' !in e;
    if Params(section, quotationStatus, orderStatus) == [] {
      assert url == e;
    } else {
      assert url[|e|] == '?';
    }
  }

  /** The first step of `loadSectionData`: without a stored token it throws before any
      request; otherwise it fetches the section's URL with only the token and JSON headers. */
  function LoadStart(storage: LocalStorage, section: string, quotationStatus: string, orderStatus: string): (r: Result<Request, string>)
    reads storage
    ensures r.Failure? <==> !Truthy(storage.GetItem(TokenKey))
    ensures r.Failure? ==> r.error == "No token found"
    ensures r.Success? ==> r.value == Request(SectionUrl(section, quotationStatus, orderStatus),
                                              map["Authorization" := "Bearer " + storage.items[TokenKey],
                                                  "Content-Type" := "application/json"])
  {
    var token := storage.GetItem(TokenKey);
    if !Truthy(token) then Failure("No token found")
    else Success(Request(SectionUrl(section, quotationStatus, orderStatus), Authorized(map[], token.value)))
  }

  /** The check of the response: a non-ok status throws `Failed to fetch <section>`. */
  function LoadResponse(section: string, status: int): (r: Result<(), string>)
    ensures r.Success? <==> Ok(status)
    ensures r.Failure? ==> r.error == "Failed to fetch " + section
  {
    if Ok(status) then Success(()) else Failure("Failed to fetch " + section)
  }

  /** The `catch` of `loadSectionData`: an authentication error removes only the access token
      and goes to login; any other is alerted and storage is left alone. */
  method OnLoadError(storage: LocalStorage, section: string, message: string) returns (toLogin: bool, alert: Option<string>)
    modifies storage
    ensures var auth := Includes(message, "Authentication failed") || Includes(message, "No token found");
      && (toLogin <==> auth)
      && (auth ==> alert == None && storage.items == old(storage.items) - {TokenKey})
      && (!auth ==> alert == Some("Failed to load " + section + ": " + message) && storage.items == old(storage.items))
  {
    if Includes(message, "Authentication failed") || Includes(message, "No token found") {
      storage.RemoveItem(TokenKey);
      return true, None;
    }
    return false, Some("Failed to load " + section + ": " + message);
  }

  /** Loading without a stored token ends on the login page with the refresh token still
      stored. */
  method LoadWithoutToken(storage: LocalStorage, section: string, quotationStatus: string, orderStatus: string)
      returns (toLogin: bool, alert: Option<string>)
    requires !Truthy(storage.GetItem(TokenKey))
    modifies storage
    ensures toLogin && alert == None
    ensures storage.items == old(storage.items) - {TokenKey}
    ensures RefreshKey in old(storage.items) ==> RefreshKey in storage.items && storage.items[RefreshKey] == old(storage.items)[RefreshKey]
  {
    var start := LoadStart(storage, section, quotationStatus, orderStatus);
    assert OccursAt(start.error, "No token found", 0);
    toLogin, alert := OnLoadError(storage, section, start.error);
  }

  /** A failed fetch of a lower-case section is alerted, never treated as an authentication
      error. */
  lemma FetchFailureIsAlerted(section: string)
    requires forall i :: 0 <= i < |section| ==> section[i] != 'A' && section[i] != 'N'
    ensures !Includes("Failed to fetch " + section, "Authentication failed")
    ensures !Includes("Failed to fetch " + section, "No token found")
  {
    var m := "Failed to fetch " + section;
    assert forall i :: 0 <= i < |m| ==> m[i] != 'A' && m[i] != 'N' by {
      forall i | 0 <= i < |m|
        ensures m[i] != 'A' && m[i] != 'N'
      {
        if i >= 16 {
          assert m[i] == section[i - 16];
        }
      }
    }
    IncludesNeedsFirstChar(m, "Authentication failed");
    IncludesNeedsFirstChar(m, "No token found");
  }

  /** What `displayData` does: nothing when the page has no `<section>List` container,
      otherwise it clears the container and fills it when the section is known. */
  datatype Display = Nothing | Cleared | Shown(section: string)

  function DisplayData(section: string, containers: set<string>): (r: Display)
    ensures section + "List" !in containers <==> r == Nothing
    ensures r.Shown? ==> r.section == section && section in {"suppliers", "quotations", "orders", "products"}
    ensures r == Cleared ==> section !in {"suppliers", "quotations", "orders", "products"}
  {
    if section + "List" !in containers then Nothing
    else if section in {"suppliers", "quotations", "orders", "products"} then Shown(section)
    else Cleared
  }
}
