/**
  The Holochain host as far as the zome uses it: the error type of its calls, links, the
  link store (`create_link` appends, `get_links` reads) and its prefix filter on link tags.
*/
module Hdk {
  import opened Wrappers
  import opened Utf8
  import opened HoloHash

  /** A directed link in the store: from `base` to `target`, carrying `tag` and the time it
      was written. Links are never changed or removed. */
  datatype Link = Link(base: EntryHash, target: EntryHash, tag: seq<byte>, timestamp: int)

  /** The Rust panics the zome can run into; a panic aborts the whole zome call. */
  datatype PanicReason =
    | TagHeaderMissing             // slicing `[1..]` off an empty tag
    | ContentStartOutOfRange       // slicing the first chunk at byte 5 when it is shorter
    | ContentStartNotCharBoundary  // slicing the first chunk at byte 5 inside a character
    | ValueChunkMissing            // `chunks[1]` of a tag without U+0000
    | ParseError                   // `unwrap`/`expect("Parse Error")` on a failed `parse::<f64>()`

  /** The error half of `ExternResult`. */
  datatype WasmError =
    | Guest(message: string)     // `WasmError::Guest` raised by the zome itself
    | TagNotUtf8(tag: seq<byte>) // the "Link tag is not valid UTF-8" guest error, with the whole tag
    | Panic(reason: PanicReason)
    | HostError(message: string) // an error passed on from a host or library call

  type ExternResult<T> = Result<T, WasmError>

  /** Whether `get_links(base, tag_prefix)` returns `l`: the base matches and, when a tag
      filter is given, the tag starts with it. */
  predicate Selects(l: Link, base: EntryHash, tagPrefix: Option<seq<byte>>)
  {
    l.base == base && (tagPrefix.None? || tagPrefix.value <= l.tag)
  }

  /** `get_links(base, tag_prefix)` over a snapshot of the store: the selected links, in
      store order. */
  function GetLinks(store: seq<Link>, base: EntryHash, tagPrefix: Option<seq<byte>>): (r: seq<Link>)
    ensures forall l :: l in r <==> l in store && Selects(l, base, tagPrefix)
    ensures |r| <= |store|
    decreases |store|
  {
    if |store| == 0 then []
    else
      var init := store[..|store| - 1];
      var last := store[|store| - 1];
      assert store == init + [last];
      GetLinks(init, base, tagPrefix) + if Selects(last, base, tagPrefix) then [last] else []
  }

  /** Reading a store that grew by `more` gives what it gave before followed by the new matches. */
  lemma {:induction false} GetLinksAppend(store: seq<Link>, more: seq<Link>, base: EntryHash, tagPrefix: Option<seq<byte>>)
    ensures GetLinks(store + more, base, tagPrefix) == GetLinks(store, base, tagPrefix) + GetLinks(more, base, tagPrefix)
    decreases |more|
  {
    if |more| == 0 {
      assert store + more == store;
    } else {
      var init := more[..|more| - 1];
      assert (store + more)[..|store + more| - 1] == store + init;
      GetLinksAppend(store, init, base, tagPrefix);
    }
  }

  /** The link store of the source chain and DHT, as seen by one zome call. */
  class Store {
    var links: seq<Link>

    constructor ()
      ensures links == []
    {
      links := [];
    }

    /** `create_link(base, target, tag)`, stamped with the host's clock reading `timestamp`. */
    method CreateLink(base: EntryHash, target: EntryHash, tag: seq<byte>, timestamp: int)
      modifies this
      ensures links == old(links) + [Link(base, target, tag, timestamp)]
    {
      links := links + [Link(base, target, tag, timestamp)];
    }
  }
}
