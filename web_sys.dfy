/** The parts of the browser that the web backend calls through `web_sys`: the local
    storage object, a flat map from string keys to string values, and the window that
    hands it out. This is a model of the browser, not of this repository's code: a JS
    exception is the `denied` flag, under which every storage call throws. */
module WebSys {
  import opened Io
  import Utf8

  /** A JS exception thrown by a `web_sys` call. */
  datatype JsError = JsError

  /** `web_sys::Storage`: a handle on the browser's store; clones share the store. */
  class WebStorageArea {
    var items: map<string, string>
    var denied: bool

    constructor (items: map<string, string>, denied: bool)
      ensures this.items == items && this.denied == denied
    {
      this.items := items;
      this.denied := denied;
    }

    /** The bytes a text reader would see at `key`: the UTF-8 encoding of the stored string. */
    ghost function Observe(key: string): Option<Bytes>
      reads this
    {
      if key in items then Some(Utf8.Encode(items[key])) else None
    }

    /** `get_item`. */
    function GetItem(key: string): (r: Result<Option<string>, JsError>)
      reads this
      ensures r.Err? <==> denied
      ensures r.Ok? ==> (r.value.Some? <==> key in items)
      ensures r.Ok? && r.value.Some? ==> r.value.value == items[key]
    {
      if denied then Err(JsError)
      else if key in items then Ok(Some(items[key]))
      else Ok(None)
    }

    /** `set_item`. */
    method SetItem(key: string, value: string) returns (r: Result<(), JsError>)
      modifies this
      ensures denied == old(denied) && (r.Err? <==> denied)
      ensures items == if denied then old(items) else old(items)[key := value]
    {
      if denied {
        r := Err(JsError);
      } else {
        items := items[key := value];
        r := Ok(());
      }
    }

    /** `remove_item`. */
    method RemoveItem(key: string) returns (r: Result<(), JsError>)
      modifies this
      ensures denied == old(denied) && (r.Err? <==> denied)
      ensures items == if denied then old(items) else old(items) - {key}
    {
      if denied {
        r := Err(JsError);
      } else {
        items := items - {key};
        r := Ok(());
      }
    }
  }

  /** `web_sys::Window`, reduced to what `local_storage()` returns: an exception, no
      storage, or the storage object. */
  datatype Window = Window(localStorage: Result<Option<WebStorageArea>, JsError>)
}
