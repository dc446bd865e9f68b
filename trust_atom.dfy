/**
  zomes/hc_zome_trust_atom/src/trust_atom.rs: a trust atom is written as two links
  (agent to target with the forward tag, target to agent with the backward tag), and
  read back by decoding link tags.

  A forward tag's text is "Ŧ" "→" content U+0000 value; a backward tag's text is
  "Ŧ" "↩" content. On a link the text is stored serialized: one header byte followed
  by its UTF-8 bytes.
*/
module TrustAtoms {
  import opened Wrappers
  import opened Utf8
  import opened Strings
  import opened HoloHash
  import opened Hdk

  datatype LinkDirection = Forward | Reverse

  /** The client-facing trust atom of this file. */
  datatype TrustAtom = TrustAtom(
    source: string,
    target: string,
    content: string,
    value: string,
    sourceEntryHash: EntryHash,
    targetEntryHash: EntryHash,
    attributes: map<string, string>)

  datatype TrustAtomInput = TrustAtomInput(
    target: EntryHash,
    content: string,
    value: string,
    attributes: map<string, string>)

  const UNICODE_NUL: char := '\0'
  const LINK_TAG_HEADER: string := "\U{166}"              // "Ŧ"
  const LINK_TAG_DIRECTION_FORWARD: string := "\U{2192}"  // "→"
  const LINK_TAG_DIRECTION_BACKWARD: string := "\U{21a9}" // "↩"

  /** The bytes Holochain puts in front of a serialized tag, which the decoder drops. */
  const HC_LINK_HEADER_BYTES: nat := 1

  /** Stands for the MessagePack string header that `link_tag` writes in front of the text
      (0xA0 with the byte length for texts under 32 bytes, a longer header beyond that). The
      model always writes this one byte; the decoder drops one byte whatever it is. */
  const SERIALIZED_STRING_HEADER: byte := 0xA0

  /** The text of the tag on the agent-to-target link: split on U+0000 it gives back the
      marked content and the value, when neither holds U+0000. */
  function ForwardTagText(content: string, value: string): (text: string)
    ensures UNICODE_NUL !in content && UNICODE_NUL !in value ==>
      Split(text, UNICODE_NUL) == [LINK_TAG_HEADER + LINK_TAG_DIRECTION_FORWARD + content, value]
  {
    var marked := LINK_TAG_HEADER + LINK_TAG_DIRECTION_FORWARD + content;
    if UNICODE_NUL !in content && UNICODE_NUL !in value then
      assert UNICODE_NUL !in marked;
      SplitAtFirstSeparator(marked, UNICODE_NUL, value);
      SplitWithoutSeparator(value, UNICODE_NUL);
      marked + [UNICODE_NUL] + value
    else
      marked + [UNICODE_NUL] + value
  }

  /** The text of the tag on the target-to-agent link: no separator and no value, so it is
      a single piece when the content holds no U+0000. */
  function BackwardTagText(content: string): (text: string)
    ensures UNICODE_NUL !in content ==> Split(text, UNICODE_NUL) == [text]
  {
    var text := LINK_TAG_HEADER + LINK_TAG_DIRECTION_BACKWARD + content;
    if UNICODE_NUL !in content then
      SplitWithoutSeparator(text, UNICODE_NUL);
      text
    else
      text
  }

  /** `link_tag`: the text serialized as one header byte followed by its UTF-8 bytes. */
  function LinkTag(text: string): (tag: seq<byte>)
    ensures |tag| >= 1 && Decode(tag[HC_LINK_HEADER_BYTES..]) == Some(text)
  {
    DecodeEncode(text);
    [SERIALIZED_STRING_HEADER] + Encode(text)
  }

  /** `tg_link_tag_header_length`: the byte length of "Ŧ" and a direction marker, the same
      for both markers. */
  function TgLinkTagHeaderLength(): (n: nat)
    ensures n == 5
    ensures n == |Encode(LINK_TAG_HEADER + LINK_TAG_DIRECTION_FORWARD)|
    ensures n == |Encode(LINK_TAG_HEADER + LINK_TAG_DIRECTION_BACKWARD)|
  {
    EncodeAppend(LINK_TAG_HEADER, LINK_TAG_DIRECTION_FORWARD);
    EncodeAppend(LINK_TAG_HEADER, LINK_TAG_DIRECTION_BACKWARD);
    |Encode(LINK_TAG_HEADER)| + |Encode(LINK_TAG_DIRECTION_FORWARD)|
  }

  /** The links `create` writes, forward first. */
  function CreatedLinks(agent: EntryHash, input: TrustAtomInput, forwardTime: int, backwardTime: int): (r: seq<Link>)
    ensures |r| == 2
    ensures r[0].base == agent && r[0].target == input.target && r[0].timestamp == forwardTime
    ensures |r[0].tag| >= 1 && Decode(r[0].tag[HC_LINK_HEADER_BYTES..]) == Some(ForwardTagText(input.content, input.value))
    ensures r[1].base == input.target && r[1].target == agent && r[1].timestamp == backwardTime
    ensures |r[1].tag| >= 1 && Decode(r[1].tag[HC_LINK_HEADER_BYTES..]) == Some(BackwardTagText(input.content))
  {
    [ Link(agent, input.target, LinkTag(ForwardTagText(input.content, input.value)), forwardTime),
      Link(input.target, agent, LinkTag(BackwardTagText(input.content)), backwardTime) ]
  }

  /** `create`: the calling agent `agent` rates `input.target`. The two `create_link` calls
      are stamped with the host clock readings `forwardTime` and `backwardTime`. */
  method Create(store: Store, agent: EntryHash, input: TrustAtomInput, forwardTime: int, backwardTime: int)
    modifies store
    ensures store.links == old(store.links) + CreatedLinks(agent, input, forwardTime, backwardTime)
  {
    var forwardLinkTag := LinkTag(ForwardTagText(input.content, input.value));
    store.CreateLink(agent, input.target, forwardLinkTag, forwardTime);
    var backwardLinkTag := LinkTag(BackwardTagText(input.content));
    store.CreateLink(input.target, agent, backwardLinkTag, backwardTime);
  }

  /** `convert_link_to_trust_atom`: decode the tag of a link fetched from `base`. The text
      after the header byte is split on U+0000; the content is the first piece without its
      first five bytes and the value is the second piece. A forward link reads as
      base-rates-target; a reverse link as target-rates-base, with placeholders for the rest. */
  function ConvertLinkToTrustAtom(link: Link, direction: LinkDirection, base: EntryHash): (r: ExternResult<TrustAtom>)
    ensures |link.tag| == 0 ==> r == Err(Panic(TagHeaderMissing))
    ensures |link.tag| > 0 && Decode(link.tag[1..]).None? ==> r == Err(TagNotUtf8(link.tag))
    ensures r.Ok? ==> r.value.attributes == map[]
    ensures r.Ok? && direction == Forward ==>
      && r.value.sourceEntryHash == base && r.value.targetEntryHash == link.target
      && r.value.source == ToB64String(base) && r.value.target == ToB64String(link.target)
      && UNICODE_NUL !in r.value.value
    ensures r.Ok? && direction == Reverse ==>
      && r.value.sourceEntryHash == link.target && r.value.targetEntryHash == base
      && r.value.source == "" && r.value.target == "" && r.value.value == "999"
      && Encode(r.value.content) == link.tag[1..]
  {
    if |link.tag| < HC_LINK_HEADER_BYTES then Err(Panic(TagHeaderMissing))
    else
      var linkTagBytes := link.tag[HC_LINK_HEADER_BYTES..];
      match Decode(linkTagBytes)
      case None => Err(TagNotUtf8(link.tag))
      case Some(linkTag) =>
        var chunks := Split(linkTag, UNICODE_NUL);
        var firstChunk := Encode(chunks[0]);
        var start := TgLinkTagHeaderLength();
        if |firstChunk| < start then Err(Panic(ContentStartOutOfRange))
        else
          // A suffix of well-formed UTF-8 decodes exactly when it starts on a character.
          match Decode(firstChunk[start..])
          case None => Err(Panic(ContentStartNotCharBoundary))
          case Some(content) =>
            if |chunks| < 2 then Err(Panic(ValueChunkMissing))
            else
              var value := chunks[1];
              match direction
              case Forward =>
                Ok(TrustAtom(ToB64String(base), ToB64String(link.target), content, value,
                             base, link.target, map[]))
              case Reverse =>
                Ok(TrustAtom("", "", linkTag, "999", link.target, base, map[]))
  }

  /** `convert_links_to_trust_atoms`: every link decoded, in order, or the first failure. */
  function ConvertLinksToTrustAtoms(links: seq<Link>, direction: LinkDirection, base: EntryHash): (r: ExternResult<seq<TrustAtom>>)
    ensures r.Ok? ==> |r.value| == |links|
    ensures r.Ok? ==> forall i :: 0 <= i < |links| ==> ConvertLinkToTrustAtom(links[i], direction, base) == Ok(r.value[i])
    ensures r.Err? <==> exists i :: 0 <= i < |links| && ConvertLinkToTrustAtom(links[i], direction, base).Err?
  {
    Collect(links, (l: Link) => ConvertLinkToTrustAtom(l, direction, base))
  }

  /** The tag filter `query` hands to `get_links`: the serialized `content_starts_with`. */
  function ContentFilter(contentStartsWith: Option<string>): (r: Option<seq<byte>>)
    ensures r.None? <==> contentStartsWith.None?
    ensures r.Some? ==> |r.value| >= 1 && Decode(r.value[HC_LINK_HEADER_BYTES..]) == contentStartsWith
  {
    match contentStartsWith
    case None => None
    case Some(prefix) => Some(LinkTag(prefix))
  }

  /** `query`: exactly one of source and target. With a source, the forward links from it
      are decoded; with a target, the links from the target are decoded as reverse links.
      `min_rating` is accepted and ignored. */
  function Query(store: seq<Link>, source: Option<EntryHash>, target: Option<EntryHash>,
                 contentStartsWith: Option<string>, minRating: Option<string>): (r: ExternResult<seq<TrustAtom>>)
    ensures source.None? && target.None? ==> r == Err(Guest("Either source or target must be specified"))
    ensures source.Some? && target.Some? ==>
      r == Err(Guest("Exactly one of source or target must be specified, but not both"))
    ensures source.Some? && target.None? && r.Ok? ==>
      var fetched := GetLinks(store, source.value, ContentFilter(contentStartsWith));
      && |r.value| == |fetched|
      && forall i :: 0 <= i < |fetched| ==>
           r.value[i].sourceEntryHash == source.value && r.value[i].targetEntryHash == fetched[i].target
    ensures source.None? && target.Some? && r.Ok? ==>
      var fetched := GetLinks(store, target.value, ContentFilter(contentStartsWith));
      && |r.value| == |fetched|
      && forall i :: 0 <= i < |fetched| ==>
           r.value[i].targetEntryHash == target.value && r.value[i].sourceEntryHash == fetched[i].target
  {
    var direction_base :-
      match (source, target)
      case (Some(s), None) => Ok((Forward, s))
      case (None, Some(t)) => Ok((Reverse, t))
      case (None, None) => Err(Guest("Either source or target must be specified"))
      case (Some(_), Some(_)) => Err(Guest("Exactly one of source or target must be specified, but not both"));
    var (direction, base) := direction_base;
    var links := GetLinks(store, base, ContentFilter(contentStartsWith));
    ConvertLinksToTrustAtoms(links, direction, base)
  }

  /** `query_mine`: `query` with the calling agent `me` as the source. */
  function QueryMine(store: seq<Link>, me: EntryHash, target: Option<EntryHash>,
                     contentStartsWith: Option<string>, minRating: Option<string>): (r: ExternResult<seq<TrustAtom>>)
    ensures target.Some? ==> r == Err(Guest("Exactly one of source or target must be specified, but not both"))
    ensures target.None? && r.Ok? ==>
      && |r.value| == |GetLinks(store, me, ContentFilter(contentStartsWith))|
      && forall a :: a in r.value ==> a.sourceEntryHash == me && a.source == ToB64String(me)
  {
    var r := Query(store, Some(me), target, contentStartsWith, minRating);
    var fetched := GetLinks(store, me, ContentFilter(contentStartsWith));
    assert target.None? && r.Ok? ==>
      forall i :: 0 <= i < |fetched| ==> ConvertLinkToTrustAtom(fetched[i], Forward, me) == Ok(r.value[i]);
    r
  }

  // ---------------------------------------------------------------------------------------
  // Properties of the codec and of the two links `create` writes.

  /** Dropping the first five bytes of a marked first piece leaves the content. */
  lemma StripMarker(marker: string, content: string)
    requires marker == LINK_TAG_HEADER + LINK_TAG_DIRECTION_FORWARD
          || marker == LINK_TAG_HEADER + LINK_TAG_DIRECTION_BACKWARD
    ensures |Encode(marker + content)| >= TgLinkTagHeaderLength()
    ensures Decode(Encode(marker + content)[TgLinkTagHeaderLength()..]) == Some(content)
  {
    EncodeAppend(marker, content);
    assert Encode(marker + content)[TgLinkTagHeaderLength()..] == Encode(content);
    DecodeEncode(content);
  }

  /** Round trip: a forward link's tag decodes to the content and value it was made from,
      whatever the header byte. */
  lemma ForwardRoundTrip(header: byte, link: Link, base: EntryHash, content: string, value: string)
    requires UNICODE_NUL !in content && UNICODE_NUL !in value
    requires link.tag == [header] + Encode(ForwardTagText(content, value))
    ensures ConvertLinkToTrustAtom(link, Forward, base)
         == Ok(TrustAtom(ToB64String(base), ToB64String(link.target), content, value, base, link.target, map[]))
  {
    assert link.tag[1..] == Encode(ForwardTagText(content, value));
    DecodeEncode(ForwardTagText(content, value));
    StripMarker(LINK_TAG_HEADER + LINK_TAG_DIRECTION_FORWARD, content);
  }

  /** A value holding U+0000 comes back cut at its first U+0000. */
  lemma ForwardValueCutAtNul(header: byte, link: Link, base: EntryHash, content: string, kept: string, dropped: string)
    requires UNICODE_NUL !in content && UNICODE_NUL !in kept
    requires link.tag == [header] + Encode(ForwardTagText(content, kept + [UNICODE_NUL] + dropped))
    ensures ConvertLinkToTrustAtom(link, Forward, base).Ok?
    ensures ConvertLinkToTrustAtom(link, Forward, base).value.value == kept
  {
    var text := ForwardTagText(content, kept + [UNICODE_NUL] + dropped);
    var marked := LINK_TAG_HEADER + LINK_TAG_DIRECTION_FORWARD + content;
    assert link.tag[1..] == Encode(text);
    DecodeEncode(text);
    assert text == marked + [UNICODE_NUL] + (kept + [UNICODE_NUL] + dropped);
    SplitAtFirstSeparator(marked, UNICODE_NUL, kept + [UNICODE_NUL] + dropped);
    SplitAtFirstSeparator(kept, UNICODE_NUL, dropped);
    StripMarker(LINK_TAG_HEADER + LINK_TAG_DIRECTION_FORWARD, content);
  }

  /** A tag whose bytes after the header are not UTF-8 (the encoding of no string) is
      rejected with the not-UTF-8 error, in either direction. */
  lemma NonUtf8TagRejected(link: Link, direction: LinkDirection, base: EntryHash)
    requires |link.tag| > 0
    requires forall s: string :: Encode(s) != link.tag[1..]
    ensures ConvertLinkToTrustAtom(link, direction, base) == Err(TagNotUtf8(link.tag))
  {
    DecodeFailsIffNotEncoding(link.tag[1..]);
  }

  /** A backward tag has no second piece, so decoding it panics in either direction. */
  lemma BackwardTagHasNoValue(header: byte, link: Link, direction: LinkDirection, base: EntryHash, content: string)
    requires UNICODE_NUL !in content
    requires link.tag == [header] + Encode(BackwardTagText(content))
    ensures ConvertLinkToTrustAtom(link, direction, base) == Err(Panic(ValueChunkMissing))
  {
    assert link.tag[1..] == Encode(BackwardTagText(content));
    DecodeEncode(BackwardTagText(content));
    StripMarker(LINK_TAG_HEADER + LINK_TAG_DIRECTION_BACKWARD, content);
  }

  /** A query by source alone decodes the forward links from that source. */
  lemma QueryBySource(store: seq<Link>, source: EntryHash, contentStartsWith: Option<string>, minRating: Option<string>)
    ensures Query(store, Some(source), None, contentStartsWith, minRating)
         == ConvertLinksToTrustAtoms(GetLinks(store, source, ContentFilter(contentStartsWith)), Forward, source)
  {
  }

  /** Of two links appended, only the first is under `base`. */
  lemma GetLinksAfterPair(store: seq<Link>, x: Link, y: Link, base: EntryHash)
    requires x.base == base && y.base != base
    ensures GetLinks(store + [x, y], base, None) == GetLinks(store, base, None) + [x]
  {
    GetLinksAppend(store, [x, y], base, None);
    assert [x, y][..1] == [x] && [x][..0] == [];
  }

  /** After `create`, a query by the creating agent returns what it returned before followed
      by the new atom (unless the agent rated itself, which puts the backward link under
      the agent too). */
  lemma QueryAfterCreate(store: seq<Link>, agent: EntryHash, input: TrustAtomInput,
                         forwardTime: int, backwardTime: int, minRating: Option<string>)
    requires input.target != agent
    requires UNICODE_NUL !in input.content && UNICODE_NUL !in input.value
    requires Query(store, Some(agent), None, None, minRating).Ok?
    ensures Query(store + CreatedLinks(agent, input, forwardTime, backwardTime), Some(agent), None, None, minRating)
         == Ok(Query(store, Some(agent), None, None, minRating).value
               + [TrustAtom(ToB64String(agent), ToB64String(input.target), input.content, input.value,
                            agent, input.target, map[])])
  {
    var created := CreatedLinks(agent, input, forwardTime, backwardTime);
    var forward := created[0];
    var before := GetLinks(store, agent, None);
    var after := GetLinks(store + created, agent, None);
    assert created == [forward, created[1]];
    GetLinksAfterPair(store, forward, created[1], agent);
    var convert := (l: Link) => ConvertLinkToTrustAtom(l, Forward, agent);
    var atom := TrustAtom(ToB64String(agent), ToB64String(input.target), input.content, input.value,
                          agent, input.target, map[]);
    assert forward.tag == [SERIALIZED_STRING_HEADER] + Encode(ForwardTagText(input.content, input.value));
    ForwardRoundTrip(SERIALIZED_STRING_HEADER, forward, agent, input.content, input.value);
    assert convert(forward) == Ok(atom);
    QueryBySource(store, agent, None, minRating);
    assert Collect(before, convert) == Query(store, Some(agent), None, None, minRating);
    CollectSnoc(before, forward, convert);
    assert Collect(after, convert) == Ok(Collect(before, convert).value + [atom]);
    QueryBySource(store + created, agent, None, minRating);
  }

  /** A content filter selects a tag whose text starts with it. */
  lemma FilterSelectsTag(contentStartsWith: Option<string>, text: string)
    requires contentStartsWith.None? || contentStartsWith.value <= text
    ensures ContentFilter(contentStartsWith).None? || ContentFilter(contentStartsWith).value <= LinkTag(text)
  {
    if contentStartsWith.Some? {
      var prefix := contentStartsWith.value;
      assert text == prefix + text[|prefix|..];
      EncodeAppend(prefix, text[|prefix|..]);
    }
  }

  /** Once `create` has run, every query by its target whose content filter the backward
      tag's text starts with (in particular, every query without one) fails: the reverse
      decoding of the backward link needs a second piece that the backward tag does not
      have. */
  lemma TargetQueryAfterCreateFails(store: seq<Link>, agent: EntryHash, input: TrustAtomInput,
                                    forwardTime: int, backwardTime: int,
                                    contentStartsWith: Option<string>, minRating: Option<string>)
    requires UNICODE_NUL !in input.content
    requires contentStartsWith.None? || contentStartsWith.value <= BackwardTagText(input.content)
    ensures Query(store + CreatedLinks(agent, input, forwardTime, backwardTime), None, Some(input.target),
                  contentStartsWith, minRating).Err?
  {
    var created := CreatedLinks(agent, input, forwardTime, backwardTime);
    var backward := created[1];
    var filter := ContentFilter(contentStartsWith);
    FilterSelectsTag(contentStartsWith, BackwardTagText(input.content));
    var fetched := GetLinks(store + created, input.target, filter);
    assert backward in store + created;
    assert backward in fetched;
    var i :| 0 <= i < |fetched| && fetched[i] == backward;
    BackwardTagHasNoValue(SERIALIZED_STRING_HEADER, backward, Reverse, input.target, input.content);
  }
}
