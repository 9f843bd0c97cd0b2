/** pkg/unsent/contacts.go: the calls `ContactsClient` hands to the generic request,
    all below `/contactBooks/{bookID}/contacts`. */
module Contacts {
  import opened Wrappers
  import Strings
  import Fmt
  import AdHoc
  import Client

  /** `GetContactsParams`: emails and ids are strings, page and limit float32. */
  datatype GetContactsParams = GetContactsParams(
    emails: Option<string>, page: Option<real>, limit: Option<real>, ids: Option<string>)

  function BookPath(bookID: string): string {
    "/contactBooks/" + bookID + "/contacts"
  }

  function ContactPath(bookID: string, contactID: string): string {
    BookPath(bookID) + "/" + contactID
  }

  /** The parameters of `List`, in the order its `if`s append them. */
  function ListParams(params: GetContactsParams, f: Fmt.Formatters): seq<AdHoc.Param> {
    [ AdHoc.Param("emails", params.emails),
      AdHoc.Param("page", params.page.Map(f.float32)),
      AdHoc.Param("limit", params.limit.Map(f.float32)),
      AdHoc.Param("ids", params.ids) ]
  }

  lemma ListNoneSet(params: GetContactsParams, f: Fmt.Formatters)
    ensures AdHoc.NoneSet(ListParams(params, f)) <==>
      params.emails.None? && params.page.None? && params.limit.None? && params.ids.None?
  {
    var ps := ListParams(params, f);
    assert ps[0].text == params.emails && ps[3].text == params.ids;
    assert ps[1].text.None? <==> params.page.None?;
    assert ps[2].text.None? <==> params.limit.None?;
  }

  /** `List`: the book's `contacts?` path, then `emails=…&`, `page=…&`, `limit=…&`,
      `ids=…&` for each set parameter; a GET without body. */
  method List(bookID: string, params: GetContactsParams, f: Fmt.Formatters) returns (call: Client.Call)
    ensures call == Client.Get(AdHoc.WithParams(BookPath(bookID) + "?", ListParams(params, f)), [])
    ensures Strings.StartsWith(call.path, BookPath(bookID) + "?")
    ensures call.path == BookPath(bookID) + "?" <==>
      params.emails.None? && params.page.None? && params.limit.None? && params.ids.None?
    ensures !(params.emails.None? && params.page.None? && params.limit.None? && params.ids.None?) ==>
      Strings.EndsWith(call.path, "&")
  {
    ghost var ps := ListParams(params, f);
    var prefix := "/contactBooks/" + bookID + "/contacts?";
    assert prefix == BookPath(bookID) + "?";
    var path := prefix;
    path := AdHoc.Append(path, "emails", params.emails);
    assert path == AdHoc.WithParams(prefix, ps[..1]) by { AdHoc.WithParamsNext(prefix, ps, 0); }
    path := AdHoc.Append(path, "page", params.page.Map(f.float32));
    assert path == AdHoc.WithParams(prefix, ps[..2]) by { AdHoc.WithParamsNext(prefix, ps, 1); }
    path := AdHoc.Append(path, "limit", params.limit.Map(f.float32));
    assert path == AdHoc.WithParams(prefix, ps[..3]) by { AdHoc.WithParamsNext(prefix, ps, 2); }
    path := AdHoc.Append(path, "ids", params.ids);
    assert path == AdHoc.WithParams(prefix, ps) by {
      AdHoc.WithParamsNext(prefix, ps, 3);
      assert ps[..4] == ps;
    }
    AdHoc.WithParamsBounds(prefix, ps);
    ListNoneSet(params, f);
    call := Client.Get(path, []);
  }

  /** Reading the query back: splitting what follows `?` on `&` gives the set
      `key=value` fragments in the order `List` writes them, then the empty piece
      after the last `&`, as long as no value holds a `&`. */
  lemma ListQueryReadsBack(bookID: string, params: GetContactsParams, f: Fmt.Formatters)
    requires params.emails.Some? ==> '&' !in params.emails.value
    requires params.ids.Some? ==> '&' !in params.ids.value
    requires params.page.Some? ==> '&' !in f.float32(params.page.value)
    requires params.limit.Some? ==> '&' !in f.float32(params.limit.value)
    ensures var prefix := BookPath(bookID) + "?";
      var path := AdHoc.WithParams(prefix, ListParams(params, f));
      |prefix| <= |path| && Strings.Split(path[|prefix|..], '&') == AdHoc.SetFragments(ListParams(params, f)) + [""]
  {
    var ps := ListParams(params, f);
    assert "emails" == ['e', 'm', 'a', 'i', 'l', 's'] && "ids" == ['i', 'd', 's'];
    assert "page" == ['p', 'a', 'g', 'e'] && "limit" == ['l', 'i', 'm', 'i', 't'];
    forall i | 0 <= i < |ps| ensures '&' !in ps[i].key { }
    AdHoc.SplitWithParams(BookPath(bookID) + "?", ps);
  }

  function Create(bookID: string, payload: Client.Payload): Client.Call {
    Client.Post(BookPath(bookID), payload, [])
  }

  function Get(bookID: string, contactID: string): Client.Call {
    Client.Get(ContactPath(bookID, contactID), [])
  }

  function Update(bookID: string, contactID: string, payload: Client.Payload): Client.Call {
    Client.Patch(ContactPath(bookID, contactID), payload, [])
  }

  function Upsert(bookID: string, contactID: string, payload: Client.Payload): Client.Call {
    Client.Put(ContactPath(bookID, contactID), payload, [])
  }

  /** `Delete` sends no body. */
  function Delete(bookID: string, contactID: string): Client.Call {
    Client.Delete(ContactPath(bookID, contactID), None, [])
  }

  lemma BookSegments(bookID: string)
    requires '/' !in bookID
    ensures Client.Segments(BookPath(bookID)) == ["contactBooks", bookID, "contacts"]
  {
    var segs := ["contactBooks", bookID, "contacts"];
    assert Strings.Join(segs[1..], '/') == bookID + "/contacts" by {
      assert segs[1..][1..] == ["contacts"];
      assert [bookID, "contacts"] == segs[1..];
    }
    assert Strings.Join(segs, '/') == "contactBooks" + "/" + (bookID + "/contacts");
    assert "/" + ("contactBooks" + "/" + (bookID + "/contacts")) == BookPath(bookID);
    Client.SegmentsOfJoin(segs);
  }

  lemma ContactSegments(bookID: string, contactID: string)
    requires '/' !in bookID && '/' !in contactID
    ensures Client.Segments(ContactPath(bookID, contactID)) == ["contactBooks", bookID, "contacts", contactID]
  {
    var segs := ["contactBooks", bookID, "contacts", contactID];
    var tail := segs[1..];
    assert tail == [bookID, "contacts", contactID];
    assert Strings.Join(tail[1..], '/') == "contacts/" + contactID by {
      assert tail[1..][1..] == [contactID];
      assert tail[1..] == ["contacts", contactID];
      assert "contacts" + "/" == "contacts/";
    }
    assert Strings.Join(tail, '/') == bookID + "/" + ("contacts/" + contactID);
    assert Strings.Join(segs, '/') == "contactBooks" + "/" + (bookID + "/" + ("contacts/" + contactID));
    assert "/" + ("contactBooks" + "/" + (bookID + "/" + ("contacts/" + contactID))) == ContactPath(bookID, contactID);
    Client.SegmentsOfJoin(segs);
  }

  /** The four single-contact calls share one path, differ only in verb, and carry
      their payload (none for `Delete`); `Create` posts to the book. A router splitting
      that path on `/` reads back the book and the contact whenever neither holds a
      `/`. */
  lemma SingleContactRoutes(bookID: string, contactID: string, payload: Client.Payload)
    requires '/' !in bookID && '/' !in contactID
    ensures Get(bookID, contactID).path == Update(bookID, contactID, payload).path
      == Upsert(bookID, contactID, payload).path == Delete(bookID, contactID).path
    ensures Get(bookID, contactID).verb == Client.GET && Get(bookID, contactID).body.None?
    ensures Update(bookID, contactID, payload).verb == Client.PATCH
      && Update(bookID, contactID, payload).body == Some(payload)
    ensures Upsert(bookID, contactID, payload).verb == Client.PUT
      && Upsert(bookID, contactID, payload).body == Some(payload)
    ensures Delete(bookID, contactID).verb == Client.DELETE && Delete(bookID, contactID).body.None?
    ensures Create(bookID, payload).verb == Client.POST && Create(bookID, payload).body == Some(payload)
    ensures Client.Segments(Get(bookID, contactID).path) == ["contactBooks", bookID, "contacts", contactID]
    ensures Client.Segments(Create(bookID, payload).path) == ["contactBooks", bookID, "contacts"]
  {
    ContactSegments(bookID, contactID);
    BookSegments(bookID);
  }
}
