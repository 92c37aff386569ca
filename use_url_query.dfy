/** The `useUrlQuery(key)` hook: a string value kept in step with one query
    parameter of the page URL. The URL's parameters are a map from names
    to values; parsing and percent-encoding are outside the model. */
module UseUrlQuery {
  import opened Text

  /** `new URLSearchParams(location.search).get(key) || ''`: the value of
      `key`, with an absent key and an empty value both reading as "". */
  function ReadParam(params: map<string, string>, key: string): (v: string)
    ensures key in params ==> v == params[key]
    ensures key !in params ==> v == ""
  {
    if key in params then params[key] else ""
  }

  /** `updateUrl(newValue)`: a value that is not blank after trimming is
      stored untrimmed under `key`; a blank one removes `key`. No other
      parameter changes. */
  function UpdateUrl(params: map<string, string>, key: string, newValue: string): (r: map<string, string>)
    ensures Trim(newValue) != [] ==> key in r && r[key] == newValue
    ensures Trim(newValue) == [] ==> key !in r
    ensures forall k :: k != key ==> (k in r <==> k in params)
    ensures forall k :: k != key && k in params ==> r[k] == params[k]
  {
    if Trim(newValue) != [] then params[key := newValue] else params - {key}
  }

  /** Reading the parameter back after an update gives the value that was
      written, or "" for a blank one. */
  lemma ReadBack(params: map<string, string>, key: string, newValue: string)
    ensures ReadParam(UpdateUrl(params, key, newValue), key) ==
      if Trim(newValue) != [] then newValue else ""
  {
  }

  /** Writing the same value twice leaves the URL as writing it once. */
  lemma UpdateIdempotent(params: map<string, string>, key: string, newValue: string)
    ensures UpdateUrl(UpdateUrl(params, key, newValue), key, newValue) == UpdateUrl(params, key, newValue)
  {
    var once := UpdateUrl(params, key, newValue);
    var twice := UpdateUrl(once, key, newValue);
    assert twice.Keys == once.Keys;
  }

  /** An update only depends on the parameters other than `key`. */
  lemma UpdateForgetsOldValue(params: map<string, string>, key: string, newValue: string, previous: string)
    ensures UpdateUrl(params[key := previous], key, newValue) == UpdateUrl(params, key, newValue)
  {
    var a := UpdateUrl(params[key := previous], key, newValue);
    var b := UpdateUrl(params, key, newValue);
    assert a.Keys == b.Keys;
  }

  /** The hook, holding its value and the page URL's parameters. */
  class UrlQuery {
    const key: string
    var params: map<string, string>
    var value: string

    /** The hook's first render: the value is read from the URL. */
    constructor(key: string, params: map<string, string>)
      ensures this.key == key && this.params == params && value == ReadParam(params, key)
    {
      this.key := key;
      this.params := params;
      value := ReadParam(params, key);
    }

    /** `setQueryValue(newValue)`: the value becomes `newValue` exactly,
        whatever its whitespace, and the URL is updated. */
    method SetQueryValue(newValue: string)
      modifies this
      ensures value == newValue && params == UpdateUrl(old(params), key, newValue)
    {
      value := newValue;
      if Trim(newValue) != [] {
        params := params[key := newValue];
      } else {
        params := params - {key};
      }
    }

    /** Back or forward navigation: the browser has replaced the URL's
        parameters with `location`; the `popstate` handler only re-reads
        the value and writes nothing to the URL. */
    method PopState(location: map<string, string>)
      modifies this
      ensures params == location && value == ReadParam(location, key)
    {
      params := location;
      value := ReadParam(params, key);
    }
  }
}
