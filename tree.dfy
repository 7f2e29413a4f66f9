/** `api/tree.ts`: `defineTreeApi(path, service)` builds the four tree
    operations of one resource. Each is the configuration it hands to `get`
    or `postPage`, after that builder has shaped it. */
module Tree {
  import opened Wrappers
  import opened JsValues
  import opened Utils
  import opened Basic

  /** `{ service, url, params: { parentId } }` handed to `get`. */
  function TreeGet(path: string, suffix: string, service: Option<string>, parentId: Value): ApiRequestConfig
  {
    GetConfig(ApiRequestConfig(service, path + suffix, None, None, None, Some([Entry("parentId", parentId)]), Nil))
  }

  /** `{ service, url, data, page }` handed to `postPage`, with no sort. */
  function TreePost(casing: Casing, path: string, suffix: string, service: Option<string>, data: Value, page: Pageable): ApiRequestConfig
  {
    PostPageConfig(casing, ApiRequestConfig(service, path + suffix, None, None, None, None, data), page, None)
  }

  /** `getTree(parentId)`. */
  function GetTree(path: string, service: Option<string>, parentId: Value): ApiRequestConfig
  {
    TreeGet(path, "/tree", service, parentId)
  }

  /** `getPickerTree(parentId)`. */
  function GetPickerTree(path: string, service: Option<string>, parentId: Value): ApiRequestConfig
  {
    TreeGet(path, "/picker-tree", service, parentId)
  }

  /** `getSearch(data, page)`. */
  function GetSearch(casing: Casing, path: string, service: Option<string>, data: Value, page: Pageable): ApiRequestConfig
  {
    TreePost(casing, path, "/search", service, data, page)
  }

  /** `getOptions(data, page)`. */
  function GetOptions(casing: Casing, path: string, service: Option<string>, data: Value, page: Pageable): ApiRequestConfig
  {
    TreePost(casing, path, "/options", service, data, page)
  }

  /** The two tree reads are GETs of `path/tree` and `path/picker-tree` to
      the given service, whose only param is `parentId`, and which send no
      body. */
  lemma TreeReads(path: string, service: Option<string>, parentId: Value)
    ensures var t := GetTree(path, service, parentId);
      && t.httpMethod == Some(DefaultMethod) && t.url == path + "/tree" && t.service == service
      && t.params == Some([Entry("parentId", parentId)]) && t.data == Nil
    ensures var t := GetPickerTree(path, service, parentId);
      && t.httpMethod == Some(DefaultMethod) && t.url == path + "/picker-tree" && t.service == service
      && t.params == Some([Entry("parentId", parentId)]) && t.data == Nil
    ensures GetTree(path, service, parentId).url != GetPickerTree(path, service, parentId).url
  {
    assert (path + "/tree")[|path| + 1] == 't';
    assert (path + "/picker-tree")[|path| + 1] == 'p';
  }

  /** The two paged tree queries are POSTs of `path/search` and
      `path/options` to the given service whose params are the page object
      extended into a fresh object (so exactly the page's properties, in its
      order, when its keys are distinct, as a JavaScript object's are) and
      whose body wraps the snake-cased data. */
  lemma {:induction false} TreeQueries(casing: Casing, path: string, service: Option<string>, data: Value, page: Pageable)
    ensures var t := GetSearch(casing, path, service, data, page);
      && t.httpMethod == Some("post") && t.url == path + "/search" && t.service == service
      && t.params == Some(Extend([], page))
      && (UniqueKeys(page) ==> t.params == Some(page))
      && t.data == Obj([Entry("body", Transcode(casing.snake, data))])
    ensures var t := GetOptions(casing, path, service, data, page);
      && t.httpMethod == Some("post") && t.url == path + "/options" && t.service == service
      && t.params == Some(Extend([], page))
      && (UniqueKeys(page) ==> t.params == Some(page))
      && t.data == Obj([Entry("body", Transcode(casing.snake, data))])
  {
    assert Extend(Extend([], page), []) == Extend([], page);
    if UniqueKeys(page) {
      ExtendFresh(page);
    }
  }
}
