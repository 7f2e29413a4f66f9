/** `api/crud.ts`: `defineCrudApi` builds the six create/read/update/delete
    operations of one resource. Each operation either is the function the
    configuration supplies, or calls `get`, `post` or `postPage` on a URL
    made of the resource path and a segment, with parameters merged into a
    fresh object over the default parameters. */
module Crud {
  import opened Wrappers
  import opened JsValues
  import opened Basic

  /** One operation entry of `CrudApiConfig`: absent, a URL segment, or a
      function the application supplies (identified by name). */
  datatype Endpoint = Unset | Segment(segment: string) | Custom(name: string)

  /** `CrudApiConfig`. */
  datatype CrudApiConfig = CrudApiConfig(
    path: Option<string>,
    list: Endpoint,
    get: Endpoint,
    add: Endpoint,
    delete: Endpoint,
    status: Endpoint,
    update: Endpoint)

  /** What an operation does when called: it is the application's own
      function, or it calls `get`, `post` or `postPage` with the built
      configuration. */
  datatype Call =
    | Delegated(name: string)
    | GetCall(config: ApiRequestConfig)
    | PostCall(config: ApiRequestConfig)
    | PostPageCall(config: ApiRequestConfig, page: Pageable, sort: Option<Sortable>)

  /** `${config.path || ''}/${segment || fallback}`. */
  function Url(path: Option<string>, e: Endpoint, fallback: string): (r: string)
    ensures e.Segment? && e.segment != "" ==> r == OrElse(path, "") + "/" + e.segment
    ensures !(e.Segment? && e.segment != "") ==> r == OrElse(path, "") + "/" + fallback
  {
    OrElse(path, "") + "/" + OrElse(if e.Segment? then Some(e.segment) else None, fallback)
  }

  /** lodash `join(ids, ',')` for a list of ids. */
  function Join(ids: seq<string>): string
    decreases |ids|
  {
    if ids == [] then ""
    else if |ids| == 1 then ids[0]
    else ids[0] + "," + Join(ids[1..])
  }

  /** The inverse of `Join` on ids without commas: the text between
      commas. */
  function Split(s: string): (r: seq<string>)
    ensures |r| > 0
    decreases |s|
  {
    if s == [] then [""]
    else if s[0] == ',' then [""] + Split(s[1..])
    else
      var rest := Split(s[1..]);
      [[s[0]] + rest[0]] + rest[1..]
  }

  /** Splitting text without a comma gives that text alone. */
  lemma {:induction false} SplitPlain(s: string)
    requires ',' !in s
    ensures Split(s) == [s]
    decreases |s|
  {
    if s != [] {
      assert ',' !in s[1..] by {
        forall k | 0 <= k < |s[1..]| ensures s[1..][k] != ',' { assert s[1..][k] == s[k + 1]; }
      }
      SplitPlain(s[1..]);
      assert s == [s[0]] + s[1..];
    }
  }

  /** Splitting `a,rest` where `a` has no comma gives `a` and then the
      pieces of `rest`. */
  lemma {:induction false} SplitAfter(a: string, rest: string)
    requires ',' !in a
    ensures Split(a + "," + rest) == [a] + Split(rest)
    decreases |a|
  {
    if a == [] {
      assert a + "," + rest == [','] + rest;
      assert ([','] + rest)[1..] == rest;
    } else {
      assert ',' !in a[1..] by {
        forall k | 0 <= k < |a[1..]| ensures a[1..][k] != ',' { assert a[1..][k] == a[k + 1]; }
      }
      SplitAfter(a[1..], rest);
      var s := a + "," + rest;
      assert s[0] == a[0] && s[1..] == a[1..] + "," + rest;
      assert [a[0]] + a[1..] == a;
    }
  }

  /** Comma-joined ids split back into the same list, provided the list is
      not empty and no id contains a comma. */
  lemma {:induction false} JoinSplit(ids: seq<string>)
    requires ids != []
    requires forall i :: 0 <= i < |ids| ==> ',' !in ids[i]
    ensures Split(Join(ids)) == ids
    decreases |ids|
  {
    if |ids| == 1 {
      SplitPlain(ids[0]);
    } else {
      JoinSplit(ids[1..]);
      SplitAfter(ids[0], Join(ids[1..]));
    }
  }

  /** The empty list and the list holding one empty id join to the same
      text: the server cannot tell them apart. */
  lemma JoinAmbiguous()
    ensures Join([]) == Join([""])
  {
  }

  /** A call configuration with only a URL, params and data. */
  function Fresh(url: string, params: seq<Entry>, data: Value): ApiRequestConfig
  {
    ApiRequestConfig(None, url, None, None, None, Some(params), data)
  }

  /** `getOne(id)`: a GET of `path/(get || 'id')` with `{id}` merged over
      the default params. */
  function GetOne(c: CrudApiConfig, defaultParam: Option<seq<Entry>>, id: Value): Call
  {
    if c.get.Custom? then Delegated(c.get.name)
    else GetCall(Fresh(Url(c.path, c.get, "id"), MergeDefaults(defaultParam, Some([Entry("id", id)])), Nil))
  }

  /** `listPage(data, page, sort)`: a paged POST of `path/(list || 'list')`
      with a copy of the default params. */
  function ListPage(c: CrudApiConfig, defaultParam: Option<seq<Entry>>, data: Value, page: Pageable, sort: Option<Sortable>): Call
  {
    if c.list.Custom? then Delegated(c.list.name)
    else PostPageCall(Fresh(Url(c.path, c.list, "list"), MergeDefaults(defaultParam, None), data), page, sort)
  }

  /** `addOne(data)`: a POST of `path/(add || 'add')`. */
  function AddOne(c: CrudApiConfig, defaultParam: Option<seq<Entry>>, data: Value): Call
  {
    if c.add.Custom? then Delegated(c.add.name)
    else PostCall(Fresh(Url(c.path, c.add, "add"), MergeDefaults(defaultParam, None), data))
  }

  /** `updateOne(id, data)`: a POST of `path/(update || 'update')` with
      `{id}` merged over the default params. */
  function UpdateOne(c: CrudApiConfig, defaultParam: Option<seq<Entry>>, id: string, data: Value): Call
  {
    if c.update.Custom? then Delegated(c.update.name)
    else PostCall(Fresh(Url(c.path, c.update, "update"), MergeDefaults(defaultParam, Some([Entry("id", Str(id))])), data))
  }

  /** `changeStatus(ids, status)`: a POST of `path/(status || 'status')`
      with the joined ids and the status merged over the default params,
      and no data. */
  function ChangeStatus(c: CrudApiConfig, defaultParam: Option<seq<Entry>>, ids: seq<string>, status: string): Call
  {
    if c.status.Custom? then Delegated(c.status.name)
    else PostCall(Fresh(Url(c.path, c.status, "status"),
                        MergeDefaults(defaultParam, Some([Entry("ids", Str(Join(ids))), Entry("status", Str(status))])), Nil))
  }

  /** `delete(ids)`: a GET of `path/(delete || 'delete')` with the joined
      ids merged over the default params. */
  function Delete(c: CrudApiConfig, defaultParam: Option<seq<Entry>>, ids: seq<string>): Call
  {
    if c.delete.Custom? then Delegated(c.delete.name)
    else GetCall(Fresh(Url(c.path, c.delete, "delete"), MergeDefaults(defaultParam, Some([Entry("ids", Str(Join(ids)))])), Nil))
  }

  /** Dispatch: a supplied function is the operation itself and no URL is
      built; otherwise the operation is a GET (`getOne`, `delete`), a POST
      (`addOne`, `updateOne`, `changeStatus`) or a paged POST (`listPage`)
      of its URL, carrying the caller's data (none for `changeStatus`). */
  lemma Dispatch(c: CrudApiConfig, dp: Option<seq<Entry>>, id: Value, sid: string, ids: seq<string>, status: string,
                 data: Value, page: Pageable, sort: Option<Sortable>)
    ensures c.get.Custom? ==> GetOne(c, dp, id) == Delegated(c.get.name)
    ensures !c.get.Custom? ==> GetOne(c, dp, id).GetCall? && GetOne(c, dp, id).config.url == Url(c.path, c.get, "id")
    ensures c.list.Custom? ==> ListPage(c, dp, data, page, sort) == Delegated(c.list.name)
    ensures !c.list.Custom? ==> ListPage(c, dp, data, page, sort) == PostPageCall(Fresh(Url(c.path, c.list, "list"), MergeDefaults(dp, None), data), page, sort)
    ensures c.add.Custom? ==> AddOne(c, dp, data) == Delegated(c.add.name)
    ensures !c.add.Custom? ==>
      AddOne(c, dp, data).PostCall? && AddOne(c, dp, data).config.data == data
      && AddOne(c, dp, data).config.url == Url(c.path, c.add, "add")
    ensures c.update.Custom? ==> UpdateOne(c, dp, sid, data) == Delegated(c.update.name)
    ensures !c.update.Custom? ==>
      UpdateOne(c, dp, sid, data).PostCall? && UpdateOne(c, dp, sid, data).config.data == data
      && UpdateOne(c, dp, sid, data).config.url == Url(c.path, c.update, "update")
    ensures c.status.Custom? ==> ChangeStatus(c, dp, ids, status) == Delegated(c.status.name)
    ensures !c.status.Custom? ==>
      ChangeStatus(c, dp, ids, status).PostCall? && ChangeStatus(c, dp, ids, status).config.data == Nil
      && ChangeStatus(c, dp, ids, status).config.url == Url(c.path, c.status, "status")
    ensures c.delete.Custom? ==> Delete(c, dp, ids) == Delegated(c.delete.name)
    ensures !c.delete.Custom? ==> Delete(c, dp, ids).GetCall? && Delete(c, dp, ids).config.url == Url(c.path, c.delete, "delete")
  {
  }

  /** With no segment configured, the six operations use `id`, `list`,
      `add`, `update`, `status` and `delete` under the path, so they reach
      six different URLs. */
  lemma DefaultUrls(path: Option<string>)
    ensures var p := OrElse(path, "");
      var urls := [Url(path, Unset, "id"), Url(path, Unset, "list"), Url(path, Unset, "add"),
                   Url(path, Unset, "update"), Url(path, Unset, "status"), Url(path, Unset, "delete")];
      && urls == [p + "/id", p + "/list", p + "/add", p + "/update", p + "/status", p + "/delete"]
      && forall i, j :: 0 <= i < j < |urls| ==> urls[i] != urls[j]
  {
    var p := OrElse(path, "");
    var n := |p| + 1;
    var urls := [p + "/id", p + "/list", p + "/add", p + "/update", p + "/status", p + "/delete"];
    var segments := ["id", "list", "add", "update", "status", "delete"];
    forall i | 0 <= i < 6
      ensures Url(path, Unset, segments[i]) == urls[i]
    {
      assert p + "/" + segments[i] == urls[i];
    }
    assert urls[0][n] == 'i' && urls[1][n] == 'l' && urls[2][n] == 'a';
    assert urls[3][n] == 'u' && urls[4][n] == 's' && urls[5][n] == 'd';
    forall i, j | 0 <= i < j < |urls|
      ensures urls[i] != urls[j]
    {
      assert urls[i][n] != urls[j][n];
    }
  }

  /** Params built from the defaults and one extra entry: the entry's key
      reads as its value, every other key as in the defaults, and the keys
      stay unique. */
  lemma {:induction false} OneOverDefaults(dp: seq<Entry>, e: Entry, k: string)
    requires UniqueKeys(dp)
    ensures var p := MergeDefaults(Some(dp), Some([e]));
      && Get(p, e.key) == Some(e.val)
      && (k != e.key ==> Get(p, k) == Get(dp, k))
      && UniqueKeys(p)
  {
    assert KeySet([e]) == {e.key} by { assert [e][0].key == e.key; }
    MergeDefaultsSpec(dp, [e], e.key);
    MergeDefaultsSpec(dp, [e], k);
  }

  /** `getOne`, `updateOne` and `delete` read their argument back under
      `id` or `ids`, and every other key as in the default params. */
  lemma {:induction false} KeyedParams(c: CrudApiConfig, dp: seq<Entry>, id: Value, sid: string, ids: seq<string>, data: Value, k: string)
    requires UniqueKeys(dp)
    ensures !c.get.Custom? ==> var p := GetOne(c, Some(dp), id).config.params.value;
      Get(p, "id") == Some(id) && (k != "id" ==> Get(p, k) == Get(dp, k))
    ensures !c.update.Custom? ==> var p := UpdateOne(c, Some(dp), sid, data).config.params.value;
      Get(p, "id") == Some(Str(sid)) && (k != "id" ==> Get(p, k) == Get(dp, k))
    ensures !c.delete.Custom? ==> var p := Delete(c, Some(dp), ids).config.params.value;
      Get(p, "ids") == Some(Str(Join(ids))) && (k != "ids" ==> Get(p, k) == Get(dp, k))
  {
    OneOverDefaults(dp, Entry("id", id), k);
    OneOverDefaults(dp, Entry("id", Str(sid)), k);
    OneOverDefaults(dp, Entry("ids", Str(Join(ids))), k);
  }

  /** `changeStatus` reads back the joined ids and the status, and every
      other key as in the default params. */
  lemma {:induction false} StatusParams(c: CrudApiConfig, dp: seq<Entry>, ids: seq<string>, status: string, k: string)
    requires UniqueKeys(dp)
    ensures !c.status.Custom? ==> var p := ChangeStatus(c, Some(dp), ids, status).config.params.value;
      && Get(p, "ids") == Some(Str(Join(ids))) && Get(p, "status") == Some(Str(status))
      && (k != "ids" && k != "status" ==> Get(p, k) == Get(dp, k))
  {
    var both := [Entry("ids", Str(Join(ids))), Entry("status", Str(status))];
    assert KeySet(both) == {"ids", "status"} by { assert both[0].key == "ids" && both[1].key == "status"; }
    MergeDefaultsSpec(dp, both, "ids");
    MergeDefaultsSpec(dp, both, "status");
    MergeDefaultsSpec(dp, both, k);
  }

  /** `listPage` and `addOne` send a copy of the default params. */
  lemma {:induction false} CopiedParams(c: CrudApiConfig, dp: seq<Entry>, data: Value, page: Pageable, sort: Option<Sortable>)
    requires UniqueKeys(dp)
    ensures !c.add.Custom? ==> AddOne(c, Some(dp), data).config.params == Some(dp)
    ensures !c.list.Custom? ==> ListPage(c, Some(dp), data, page, sort).config.params == Some(dp)
  {
    ExtendFresh(dp);
    assert Extend(dp, []) == dp;
  }
}
