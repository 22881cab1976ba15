/**
 * What the handlers send and receive: multipart `FormData` bodies as ordered
 * key/value entries, and the outcome of a request as the handler observes it.
 */
module Requests {
  import opened JsValues
  import opened Lists

  /** A file the browser's file picker handed over. */
  datatype FileRef = FileRef(name: string)

  /** What one `FormData.append` stores: text, a file, or an object serialised with `JSON.stringify`. */
  datatype Value = Text(s: string) | Blob(file: FileRef) | Json(fields: map<string, string>)

  /** One `FormData.append(key, value)`. */
  datatype Entry = Entry(key: string, value: Value)

  /** The outcome of one request: a body on success, or a failure with the server's message if it sent one. */
  datatype Reply<T> = Ok(body: T) | Failed(message: Option<string>)

  /** How many entries of a body carry the key `key`. */
  function CountKey(entries: seq<Entry>, key: string): (n: nat)
    ensures n <= |entries|
    ensures n == 0 <==> forall i :: 0 <= i < |entries| ==> entries[i].key != key
  {
    if entries == [] then 0
    else (if entries[0].key == key then 1 else 0) + CountKey(entries[1..], key)
  }

  /** Counting a key over a body built in two parts adds the two counts. */
  lemma {:induction false} CountKeyAppend(a: seq<Entry>, b: seq<Entry>, key: string)
    ensures CountKey(a + b, key) == CountKey(a, key) + CountKey(b, key)
  {
    if a != [] {
      assert (a + b)[1..] == a[1..] + b;
      CountKeyAppend(a[1..], b, key);
    } else {
      assert a + b == b;
    }
  }

  /** The keys of a body, in order. */
  function KeysOf(entries: seq<Entry>): (r: seq<string>)
    ensures |r| == |entries| && forall i :: 0 <= i < |r| ==> r[i] == entries[i].key
  {
    if entries == [] then [] else [entries[0].key] + KeysOf(entries[1..])
  }

  /** The entry one key contributes: none when its value is absent. */
  function EntryFor(key: string, value: Option<Value>): seq<Entry>
  {
    if value.Some? then [Entry(key, value.value)] else []
  }

  /**
   * The body an append loop over `keys` builds, where `valueOf` gives each
   * key's value, or None for a key the loop skips.
   */
  function AppendPresent(keys: seq<string>, valueOf: string -> Option<Value>): seq<Entry>
  {
    if keys == [] then [] else EntryFor(keys[0], valueOf(keys[0])) + AppendPresent(keys[1..], valueOf)
  }

  /** No key is listed twice. */
  predicate Distinct(keys: seq<string>)
  {
    forall i, j :: 0 <= i < j < |keys| ==> keys[i] != keys[j]
  }

  /** One more pass of the loop appends the next key's entry at the end. */
  lemma {:induction false} AppendPresentSnoc(keys: seq<string>, key: string, valueOf: string -> Option<Value>)
    ensures AppendPresent(keys + [key], valueOf) == AppendPresent(keys, valueOf) + EntryFor(key, valueOf(key))
  {
    if keys == [] {
      assert keys + [key] == [key];
    } else {
      assert (keys + [key])[1..] == keys[1..] + [key];
      AppendPresentSnoc(keys[1..], key, valueOf);
    }
  }

  /** Each entry of the body carries a listed key and that key's value. */
  lemma {:induction false} AppendPresentValues(keys: seq<string>, valueOf: string -> Option<Value>)
    ensures forall e :: e in AppendPresent(keys, valueOf) ==> e.key in keys && valueOf(e.key) == Some(e.value)
  {
    if keys != [] {
      AppendPresentValues(keys[1..], valueOf);
      forall e | e in AppendPresent(keys[1..], valueOf)
        ensures e.key in keys
      {
        assert e.key in keys[1..];
      }
    }
  }

  /** The body's keys keep the order in which the loop visits them. */
  lemma {:induction false} AppendPresentOrder(keys: seq<string>, valueOf: string -> Option<Value>)
    ensures SubseqOf(KeysOf(AppendPresent(keys, valueOf)), keys)
  {
    if keys != [] {
      var head := EntryFor(keys[0], valueOf(keys[0]));
      var tail := AppendPresent(keys[1..], valueOf);
      AppendPresentOrder(keys[1..], valueOf);
      if head != [] {
        assert KeysOf(head + tail) == [keys[0]] + KeysOf(tail) by {
          assert (head + tail)[1..] == tail;
        }
        assert KeysOf(head + tail)[1..] == KeysOf(tail);
      } else {
        assert head + tail == tail;
      }
    }
  }

  /** With distinct keys, a listed key with a value is in the body exactly once, and any other key not at all. */
  lemma {:induction false} AppendPresentCount(keys: seq<string>, valueOf: string -> Option<Value>, key: string)
    requires Distinct(keys)
    ensures CountKey(AppendPresent(keys, valueOf), key) == if key in keys && valueOf(key).Some? then 1 else 0
  {
    if keys != [] {
      var head := EntryFor(keys[0], valueOf(keys[0]));
      var tail := AppendPresent(keys[1..], valueOf);
      assert Distinct(keys[1..]) by {
        forall i, j | 0 <= i < j < |keys[1..]|
          ensures keys[1..][i] != keys[1..][j]
        {
          assert keys[1..][i] == keys[i + 1] && keys[1..][j] == keys[j + 1];
        }
      }
      AppendPresentCount(keys[1..], valueOf, key);
      CountKeyAppend(head, tail, key);
      assert keys[0] !in keys[1..] by {
        forall j | 0 <= j < |keys[1..]|
          ensures keys[1..][j] != keys[0]
        {
          assert keys[1..][j] == keys[j + 1];
        }
      }
    }
  }
}
