# Trust atoms and the trust-graph rollup, in Dafny

This project models the core of the `hc_zome_trust_atom` Holochain zome.

- **Trust atoms** (`zomes/hc_zome_trust_atom/src/trust_atom.rs`). An agent rates a subject
  by writing two links. The forward link goes from the agent to the subject. Its tag is
  `Ŧ→<content>\0<value>`. The backward link goes from the subject to the agent. Its tag is
  `Ŧ↩<content>`. A tag is stored as one header byte followed by the UTF-8 bytes of its
  text. `query` fetches the links under a base, optionally filtered by a tag prefix, and
  decodes each tag back into an atom.
- **The rollup** (`zomes/hc_zome_trust_atom/src/trust_graph.rs`). Starting from the calling
  agent's own atoms, the rollup does four things:
  1. It lists the agents the calling agent rated (`build_agent_list`).
  2. For every other subject, it keeps what positively rated agents said about that
     subject, the "silver" map (`build_rollup_silver`).
  3. It blends those values into one "rollup" atom per subject, the "gold" list
     (`build_rollup_gold`). Each contribution is weighted by the calling agent's rating
     of the agent, raised to the power 1.618.
  4. `get_latest` and `get_rating` pick the latest link by timestamp.

How the model represents the zome:

- **Modules.**
  - `Wrappers`: Option, Result, and the `collect` of Results.
  - `Utf8`: UTF-8 as in RFC 3629, with encode, decode and their round trip.
  - `Strings`: `str::split` on one character.
  - `HoloHash`: entry hashes, their base64 text form, and the key order of a `BTreeMap`.
  - `BTreeMap`: a map as its ordered entry list.
  - `Hdk`: links, the error type, and a `Store` class whose `CreateLink` appends to the
    links and whose `GetLinks` reads them.
  - `TrustAtoms`: `trust_atom.rs`.
  - `Latest`: `get_latest`.
  - `TrustGraph`: `trust_graph.rs`.
- **Two versions of the atom.** `trust_graph.rs` is written against a newer
  `trust_atom.rs` than the one in the repository. Its atoms have optional `prefix`,
  `content`, `value` and `extra`. It calls six functions of that newer file:
  `query_mine`, `convert_link_to_trust_atom`, `convert_links_to_trust_atoms`,
  `create_link_tag`, `create_extra` and `create_trust_atom`.
  - Those functions, plus `f64` parsing, `powf(1.618)`, `f64::to_string` and
    `serde_json::to_string`, are the fields of the `TrustGraph.Api` datatype.
    `convert_links_to_trust_atoms` is the `collect` of `convert_link_to_trust_atom`
    over the links (`TrustGraph.SilverAtoms`), as in the older file.
  - Every result about the rollup holds for any such functions.
  - `TrustAtoms` models the older file that is in the repository, except
    `create_string_target` (see "Left out").
- **Host calls become parameters.** The calling agent's key and the host clock readings
  stamped on new links are parameters. Reads of the store are functions of a snapshot
  `seq<Link>`, and `create_link` is `Hdk.Store.CreateLink`.
- **Panics.** A Rust panic (slice out of range, `chunks[1]` missing, `unwrap` or `expect`
  of a failed parse) becomes an `Err(Panic(..))` result. A panic aborts the zome call,
  and that error aborts the modelled call in the same way.
- **`f64`.** An `f64` is a `real`, or `NotFinite` for the infinities and NaN. The rollup
  produces those only by dividing by zero.
- **Loops.** The Rust loops are methods with loop invariants. Each method is proved equal
  to a recursive function, and the lemmas are stated about those functions.
  `get_latest`'s `sort_by` is an in-place stable insertion sort on an array.

Where the project's description and the code differ, the model follows the code:

- **Subjects with no contributors.** The description says such a subject is skipped. The
  code emits a rollup atom for it anyway. The atom's value is NaN without the calling
  agent's own rating, and 0.8 times that rating with it (`GoldValueWithoutAnyRating`,
  `GoldValueWithoutContributors`).
- **Which atoms mark agents.** `build_agent_list` treats an atom as naming an agent when
  it has any prefix. The `if let Some(_agent_prefix_string)` binds a new variable rather
  than comparing with "agent". So rollup atoms and agent atoms both count
  (`AgentList`).
- **Decoding reverse links.** The description says reverse queries decode backward
  links. With the code, a query by target fails once it fetches a backward tag written by
  `create`, because that tag has no `\0` piece for `chunks[1]`. This holds for every
  query without a content filter, and for every query whose filter the backward tag's
  text starts with (`TargetQueryAfterCreateFails`).

## Model

| member | source | states |
|---|---|---|
| Wrappers.Collect | zomes/hc_zome_trust_atom/src/trust_atom.rs:141-145 | `collect` into a Result gives every image in order when all are Ok, and otherwise the error of the first element whose image is an error |
| Wrappers.CollectSnoc | zomes/hc_zome_trust_atom/src/trust_atom.rs:141-145 | collecting one more element whose image is Ok appends that image |
| Wrappers.CollectFailsAt | zomes/hc_zome_trust_atom/src/trust_atom.rs:141-145 | collecting stops at the first failing element and returns its error |
| Utf8.EncodeChar | zomes/hc_zome_trust_atom/src/trust_atom.rs:217-220 | a character's UTF-8 form is 1 to 4 bytes, its length is set by the code point's range, and it holds a 0 byte exactly for U+0000 |
| Utf8.Encode | zomes/hc_zome_trust_atom/src/trust_atom.rs:217-220 | a string's UTF-8 form has at least one byte per character; with `DecodeEncode`, it decodes back to the string |
| Utf8.DecodeFirst | zomes/hc_zome_trust_atom/src/trust_atom.rs:161-169 | a decoded first character is exactly the encoding of that character at the front of the bytes |
| Utf8.Decode | zomes/hc_zome_trust_atom/src/trust_atom.rs:161-169 | `String::from_utf8` succeeds only with the string whose encoding is exactly the bytes |
| Utf8.DecodeFirstOfEncoded | zomes/hc_zome_trust_atom/src/trust_atom.rs:161-169 | decoding reads back the first encoded character whatever follows it |
| Utf8.EncodeCharInjective | zomes/hc_zome_trust_atom/src/trust_atom.rs:161-169 | two characters whose encodings both start the same bytes are equal (UTF-8 is prefix-free) |
| Utf8.EncodeAppend | zomes/hc_zome_trust_atom/src/trust_atom.rs:49-56 | encoding a concatenation concatenates the encodings |
| Utf8.DecodeEncode | zomes/hc_zome_trust_atom/src/trust_atom.rs:161-169 | round trip: decoding the UTF-8 form of any string gives the string back |
| Utf8.DecodeFailsIffNotEncoding | zomes/hc_zome_trust_atom/src/trust_atom.rs:161-169 | decoding fails exactly when the bytes are the encoding of no string |
| Utf8.ZeroByteIffNul | zomes/hc_zome_trust_atom/src/trust_atom.rs:171 | an encoded string holds a 0 byte exactly when the string holds U+0000 |
| Strings.Split | zomes/hc_zome_trust_atom/src/trust_atom.rs:171 | `split` gives at least one piece and no piece contains the separator |
| Strings.JoinSplit | zomes/hc_zome_trust_atom/src/trust_atom.rs:171 | the pieces joined with the separator give back the string |
| Strings.SplitWithoutSeparator | zomes/hc_zome_trust_atom/src/trust_atom.rs:171 | a string without the separator is a single piece |
| Strings.SplitAtFirstSeparator | zomes/hc_zome_trust_atom/src/trust_atom.rs:171-173 | the first piece ends at the first separator and the rest is split the same way |
| HoloHash.Base64Url | zomes/hc_zome_trust_atom/src/trust_graph.rs:159-162 | the unpadded URL-safe base64 text of n bytes has (4n+2)/3 characters and decodes back to the bytes, so different hashes get different texts |
| HoloHash.SextetValueOfSextet | zomes/hc_zome_trust_atom/src/trust_graph.rs:159-162 | each of the 64 digits `A`-`Z`, `a`-`z`, `0`-`9`, `-`, `_` reads back as the value it writes |
| HoloHash.GroupRoundTrip | zomes/hc_zome_trust_atom/src/trust_graph.rs:159-162 | three bytes written as four digits read back as those three bytes, whatever text follows |
| HoloHash.TailRoundTrip | zomes/hc_zome_trust_atom/src/trust_graph.rs:159-162 | a final one or two bytes, written as two or three digits without padding, read back as those bytes |
| HoloHash.ToB64StringInjective | zomes/hc_zome_trust_atom/src/trust_graph.rs:159-162 | `EntryHashB64::to_string` gives different texts for different hashes, so the sourced map loses no entry to a clash of keys |
| HoloHash.BelowIrreflexive | zomes/hc_zome_trust_atom/src/trust_graph.rs:61 | no byte string is below itself |
| HoloHash.BelowTransitive | zomes/hc_zome_trust_atom/src/trust_graph.rs:61 | the lexicographic order on hash bytes is transitive |
| HoloHash.BelowTotal | zomes/hc_zome_trust_atom/src/trust_graph.rs:61 | of two different byte strings one is below the other |
| HoloHash.LessIsStrictTotalOrder | zomes/hc_zome_trust_atom/src/trust_graph.rs:61 | the key order of `BTreeMap<EntryHash, _>` is a strict total order |
| BTreeMap.Get | zomes/hc_zome_trust_atom/src/trust_graph.rs:142 | `get` finds a value exactly for the keys of the map, and that value is stored under the key |
| BTreeMap.Insert | zomes/hc_zome_trust_atom/src/trust_graph.rs:122 | `insert` keeps the keys ordered, adds the key, maps it to the new value, leaves every other key's value unchanged, keeps only entries that were there under another key, and grows the map only for a new key |
| BTreeMap.KeysCons | zomes/hc_zome_trust_atom/src/trust_graph.rs:130 | the keys of a map with one more entry in front are that entry's key plus the others |
| BTreeMap.OrderedTail | zomes/hc_zome_trust_atom/src/trust_graph.rs:142 | the rest of an ordered map is ordered and its keys all follow the first key |
| BTreeMap.OrderedCons | zomes/hc_zome_trust_atom/src/trust_graph.rs:130 | an entry whose key precedes all keys of an ordered map can go in front |
| BTreeMap.OrderedKeyCount | zomes/hc_zome_trust_atom/src/trust_graph.rs:142 | an ordered map has as many keys as entries, so iteration visits each key once |
| Hdk.GetLinks | zomes/hc_zome_trust_atom/src/trust_atom.rs:128 | `get_links(base, tag_prefix)` returns exactly the stored links under the base whose tag starts with the prefix |
| Hdk.GetLinksAppend | zomes/hc_zome_trust_atom/src/trust_atom.rs:59-70 | after links are appended to the store, `get_links` returns its earlier answer followed by the new matches |
| Hdk.Store.constructor | zomes/hc_zome_trust_atom/src/trust_atom.rs:59-63 | a new store holds no links |
| Hdk.Store.CreateLink | zomes/hc_zome_trust_atom/src/trust_atom.rs:59-63 | `create_link` appends exactly one link with the given base, target, tag and timestamp |
| TrustAtoms.LinkTag | zomes/hc_zome_trust_atom/src/trust_atom.rs:217-220 | a serialized tag has at least one header byte, and the bytes after it decode to the tag text |
| TrustAtoms.ForwardTagText | zomes/hc_zome_trust_atom/src/trust_atom.rs:49-56 | the forward tag text split on U+0000 gives back the marked content and the value, when neither holds U+0000 |
| TrustAtoms.BackwardTagText | zomes/hc_zome_trust_atom/src/trust_atom.rs:65-68 | the backward tag text has no U+0000, so it is a single piece, when the content holds none |
| TrustAtoms.CreatedLinks | zomes/hc_zome_trust_atom/src/trust_atom.rs:49-70 | `create` writes two links: the agent to the target, whose tag decodes to the forward text, then the target to the agent, whose tag decodes to the backward text, each with its own clock reading |
| TrustAtoms.ContentFilter | zomes/hc_zome_trust_atom/src/trust_atom.rs:123-126 | there is a tag filter exactly when `content_starts_with` is given, and its bytes after the header decode to that text |
| TrustAtoms.TgLinkTagHeaderLength | zomes/hc_zome_trust_atom/src/trust_atom.rs:222-224 | the marker length is 5 bytes, the UTF-8 length of "Ŧ→" and of "Ŧ↩" alike |
| TrustAtoms.Create | zomes/hc_zome_trust_atom/src/trust_atom.rs:44-81 | `create` appends the forward link (agent to target, tag `Ŧ→content\0value`) and then the backward link (target to agent, tag `Ŧ↩content`) |
| TrustAtoms.ConvertLinkToTrustAtom | zomes/hc_zome_trust_atom/src/trust_atom.rs:151-203 | an empty tag panics; tag bytes that are not UTF-8 give the guest error; a forward atom reads base→target with a value free of U+0000; a reverse atom reads target→base with the whole tag text as content and value "999" |
| TrustAtoms.ConvertLinksToTrustAtoms | zomes/hc_zome_trust_atom/src/trust_atom.rs:136-149 | all links decode in order, or the call fails exactly when some link fails |
| TrustAtoms.Query | zomes/hc_zome_trust_atom/src/trust_atom.rs:99-134 | neither or both of source and target give the two guest errors; with one of them, each fetched link decodes into one atom whose ends are the base and that link's target |
| TrustAtoms.QueryMine | zomes/hc_zome_trust_atom/src/trust_atom.rs:83-94 | with a target it always fails (the agent is the source too); without one every atom has the calling agent as its source |
| TrustAtoms.StripMarker | zomes/hc_zome_trust_atom/src/trust_atom.rs:172 | dropping the first 5 bytes of a marked piece leaves the content |
| TrustAtoms.ForwardRoundTrip | zomes/hc_zome_trust_atom/src/trust_atom.rs:151-203 | round trip: a forward link's tag decodes to the content and value it was made from, whatever the header byte |
| TrustAtoms.ForwardValueCutAtNul | zomes/hc_zome_trust_atom/src/trust_atom.rs:171-173 | a value holding U+0000 comes back cut at its first U+0000 |
| TrustAtoms.NonUtf8TagRejected | zomes/hc_zome_trust_atom/src/trust_atom.rs:161-169 | a tag whose bytes after the header encode no string is rejected with the not-UTF-8 error |
| TrustAtoms.BackwardTagHasNoValue | zomes/hc_zome_trust_atom/src/trust_atom.rs:173 | decoding a backward tag panics on the missing second piece, in either direction |
| TrustAtoms.QueryBySource | zomes/hc_zome_trust_atom/src/trust_atom.rs:107-131 | a query by source alone decodes the forward links from the source under the content filter |
| TrustAtoms.GetLinksAfterPair | zomes/hc_zome_trust_atom/src/trust_atom.rs:59-70 | of the two links `create` appends, only the forward one is under the agent (for another target) |
| TrustAtoms.FilterSelectsTag | zomes/hc_zome_trust_atom/src/trust_atom.rs:123-128 | a content filter fetches every tag whose text starts with it |
| TrustAtoms.QueryAfterCreate | zomes/hc_zome_trust_atom/src/trust_atom.rs:44-134 | after `create`, the agent's query by source returns its earlier atoms followed by exactly the new atom |
| TrustAtoms.TargetQueryAfterCreateFails | zomes/hc_zome_trust_atom/src/trust_atom.rs:65-70 | after `create`, every query by the rated target fails when it has no content filter or one that the backward tag text starts with |
| Latest.Matching | zomes/hc_zome_trust_atom/src/trust_graph.rs:253-256 | the filter keeps exactly the fetched links that point at the target |
| Latest.InsertByTimestamp | zomes/hc_zome_trust_atom/src/trust_graph.rs:258 | one insertion keeps the links sorted by timestamp and adds exactly that link |
| Latest.SortedSnoc | zomes/hc_zome_trust_atom/src/trust_graph.rs:258 | appending a link no earlier than the others keeps the order sorted |
| Latest.SortByTimestamp | zomes/hc_zome_trust_atom/src/trust_graph.rs:258 | `sort_by` on timestamps gives a sorted permutation of the links |
| Latest.Pop | zomes/hc_zome_trust_atom/src/trust_graph.rs:259 | `pop` finds nothing exactly on an empty vector, and otherwise its last element |
| Latest.LastMaxIndex | zomes/hc_zome_trust_atom/src/trust_graph.rs:258-259 | reference scan: the last position holding the greatest timestamp |
| Latest.PopSortedIsCandidate | zomes/hc_zome_trust_atom/src/trust_graph.rs:258-259 | popping the sorted links finds nothing exactly when there are no links, and otherwise one of them |
| Latest.SortedLastIsLastMaximum | zomes/hc_zome_trust_atom/src/trust_graph.rs:258-259 | the stable sort followed by `pop` picks the last link holding the greatest timestamp |
| Latest.LatestLink | zomes/hc_zome_trust_atom/src/trust_graph.rs:248-265 | `get_latest` finds nothing exactly when no fetched link points at the target, and otherwise a fetched link to the target |
| Latest.LatestLinkIsLastMaximum | zomes/hc_zome_trust_atom/src/trust_graph.rs:248-265 | `get_latest` finds nothing exactly when no fetched link points at the target, and otherwise a fetched link to the target with the greatest timestamp, the last such link in fetch order |
| Latest.InsertPosition | zomes/hc_zome_trust_atom/src/trust_graph.rs:258 | insertion puts the link after the links not later than it and before the later ones (stability) |
| Latest.Shifted | zomes/hc_zome_trust_atom/src/trust_graph.rs:258 | the array after shifting is the sorted prefix with the link inserted at its position |
| Latest.SortByTimestampSnoc | zomes/hc_zome_trust_atom/src/trust_graph.rs:258 | sorting one more link is inserting it into the sorted prefix |
| Latest.PlacedAt | zomes/hc_zome_trust_atom/src/trust_graph.rs:258 | the sorted prefix with the link placed after the links not later than it and the later ones shifted up is exactly the insertion |
| Latest.ShiftLater | zomes/hc_zome_trust_atom/src/trust_graph.rs:258 | the shifting loop moves the links later than the inserted one up by one place, keeps the earlier ones and the rest of the array, and stops after the last link not later than it |
| Latest.InsertInPlace | zomes/hc_zome_trust_atom/src/trust_graph.rs:258 | one round of the in-place sort turns the array prefix into the insertion of the next link, and leaves the rest unchanged |
| Latest.SortLinksByTimestamp | zomes/hc_zome_trust_atom/src/trust_graph.rs:258 | the in-place sort leaves the array equal to the stable sort of its old contents |
| Latest.GetLatest | zomes/hc_zome_trust_atom/src/trust_graph.rs:248-265 | the filter, in-place sort and pop compute the latest link |
| TrustGraph.SumF64 | zomes/hc_zome_trust_atom/src/trust_graph.rs:193 | `iter().sum()` is finite exactly when every term is |
| TrustGraph.Reals | zomes/hc_zome_trust_atom/src/trust_graph.rs:193 | the real numbers of the terms, one per term |
| TrustGraph.SumF64IsRealSum | zomes/hc_zome_trust_atom/src/trust_graph.rs:193 | a finite `iter().sum()` is the real sum of the terms |
| TrustGraph.GetRating | zomes/hc_zome_trust_atom/src/trust_graph.rs:234-246 | with no latest link there is no rating, and a failure is the decoding failure of the latest link |
| TrustGraph.GetRatingIsLatestValue | zomes/hc_zome_trust_atom/src/trust_graph.rs:234-246 | `get_rating` finds nothing when no link points at the target; otherwise the rating, or its failure, is that of decoding one fetched link to the target: one with the greatest timestamp, after which only links with smaller timestamps follow in fetch order |
| TrustGraph.AgentList | zomes/hc_zome_trust_atom/src/trust_graph.rs:41-54 | the agents are exactly the targets of the atoms with any prefix, each listed once |
| TrustGraph.AgentListGrows | zomes/hc_zome_trust_atom/src/trust_graph.rs:44-50 | agents are only appended, so the list is in order of first appearance |
| TrustGraph.BuildAgentList | zomes/hc_zome_trust_atom/src/trust_graph.rs:41-54 | the loop computes `AgentList` |
| TrustGraph.SilverTargets | zomes/hc_zome_trust_atom/src/trust_graph.rs:62-65 | the silver subjects are exactly the targets of the atoms whose prefix is not "agent" |
| TrustGraph.LatestLinks | zomes/hc_zome_trust_atom/src/trust_graph.rs:82-90 | `links_latest` has no duplicates, holds only latest links of fetched targets, and holds every such latest link that exists |
| TrustGraph.CollectLatestLinks | zomes/hc_zome_trust_atom/src/trust_graph.rs:82-90 | the loop computes `LatestLinks` |
| TrustGraph.RateOne | zomes/hc_zome_trust_atom/src/trust_graph.rs:96-127 | one atom fails exactly when it is unreadable (a listed agent's atom with content and value whose rating read fails, or whose rating does not parse), with that read error or the parse panic; otherwise the map stays ordered |
| TrustGraph.RateOneEntries | zomes/hc_zome_trust_atom/src/trust_graph.rs:96-127 | a successful step inserts the contribution of a contributing atom (its source, content, value and the positive rating) under its source, and leaves the map unchanged for any other atom |
| TrustGraph.RateAll | zomes/hc_zome_trust_atom/src/trust_graph.rs:94-128 | the inner map is ordered |
| TrustGraph.RateAllOk | zomes/hc_zome_trust_atom/src/trust_graph.rs:94-128 | the rating loop succeeds exactly when no atom is unreadable |
| TrustGraph.RateAllFirstError | zomes/hc_zome_trust_atom/src/trust_graph.rs:108-114 | the first unreadable atom decides the error: its failed read's error, or the parse panic |
| TrustGraph.RateAllPrefix | zomes/hc_zome_trust_atom/src/trust_graph.rs:94-128 | after any number of atoms, the keys are the sources of the contributing atoms so far, and each entry is the contribution of the last contributing atom from its source |
| TrustGraph.RateAllKeys | zomes/hc_zome_trust_atom/src/trust_graph.rs:94-128 | the keys of an inner map are exactly the sources of the contributing atoms: listed agents whose atom has content and value and whose rating parses to a positive number |
| TrustGraph.RateAllOrigin | zomes/hc_zome_trust_atom/src/trust_graph.rs:94-128 | each entry of an inner map is the contribution of a contributing atom, the last contributing one from that source |
| TrustGraph.RateAllFails | zomes/hc_zome_trust_atom/src/trust_graph.rs:110-114 | a failed rating lookup or parse ends the loop with that error |
| TrustGraph.RateLatestAtoms | zomes/hc_zome_trust_atom/src/trust_graph.rs:94-128 | the loop over `trust_atoms_latest` computes `RateAll` |
| TrustGraph.RateLatestAtom | zomes/hc_zome_trust_atom/src/trust_graph.rs:96-127 | the loop body computes `RateOne` with the calling agent's `get_rating` |
| TrustGraph.SilverMap | zomes/hc_zome_trust_atom/src/trust_graph.rs:71-128 | a subject's inner map is ordered, and is the rating of the atoms decoded from the latest links back to the subject |
| TrustGraph.BuildSilverMap | zomes/hc_zome_trust_atom/src/trust_graph.rs:71-128 | the fetch, latest-link and decode steps followed by the rating loop compute `SilverMap` |
| TrustGraph.SilverStep | zomes/hc_zome_trust_atom/src/trust_graph.rs:70-131 | a round skips agents, and otherwise adds the subject's key with its inner map, leaving the other entries alone |
| TrustGraph.SilverRound | zomes/hc_zome_trust_atom/src/trust_graph.rs:70-131 | the loop body computes `SilverStep` |
| TrustGraph.SilverFold | zomes/hc_zome_trust_atom/src/trust_graph.rs:68-132 | the silver keys are exactly the targets that are not agents, in key order, and each holds its subject's inner map |
| TrustGraph.SilverFoldFails | zomes/hc_zome_trust_atom/src/trust_graph.rs:71-93 | a failure for one subject ends the silver loop with that error |
| TrustGraph.SilverLoop | zomes/hc_zome_trust_atom/src/trust_graph.rs:68-132 | the loop computes `SilverFold` |
| TrustGraph.Silver | zomes/hc_zome_trust_atom/src/trust_graph.rs:56-135 | the silver keys are the targets of the atoms not marked "agent" that are not listed agents, in key order |
| TrustGraph.SilverKeysAndEntries | zomes/hc_zome_trust_atom/src/trust_graph.rs:56-135 | for every silver subject, the atoms said about it decode and none is unreadable; its inner map's keys are exactly the sources of the contributing atoms, and each entry is the contribution of one of them |
| TrustGraph.RatedAtoms | zomes/hc_zome_trust_atom/src/trust_graph.rs:94-128 | a successful rating stated over the atoms themselves: none unreadable, keys exactly the contributing sources, each entry a contribution |
| TrustGraph.BuildRollupSilver | zomes/hc_zome_trust_atom/src/trust_graph.rs:56-135 | `build_rollup_silver` computes `Silver` |
| TrustGraph.RatedValues | zomes/hc_zome_trust_atom/src/trust_graph.rs:174-181 | there is one rated value per weight |
| TrustGraph.FirstPass | zomes/hc_zome_trust_atom/src/trust_graph.rs:147-164 | the first loop's sum is the sum of the `rating^1.618` weights, and the sourced map is non-empty exactly when some agent has a latest link to the subject |
| TrustGraph.SourcedGrows | zomes/hc_zome_trust_atom/src/trust_graph.rs:152-163 | a round's sourced map is empty exactly when it was empty and the agent has no latest link |
| TrustGraph.FirstPassFails | zomes/hc_zome_trust_atom/src/trust_graph.rs:149-158 | a parse or decode failure ends the first loop with that error |
| TrustGraph.SumPhiAndSource | zomes/hc_zome_trust_atom/src/trust_graph.rs:143-164 | the first loop computes `FirstPass` over the latest links to the subject |
| TrustGraph.AccumulateEntry | zomes/hc_zome_trust_atom/src/trust_graph.rs:148-163 | the first loop's body computes `FirstPassEntry` |
| TrustGraph.Contributions | zomes/hc_zome_trust_atom/src/trust_graph.rs:174-181 | the accumulator holds, for each rated entry in key order, its weight over the weight sum times its value; its only failure is the parse panic |
| TrustGraph.ContributionsFail | zomes/hc_zome_trust_atom/src/trust_graph.rs:176-177 | a parse failure ends the second loop with that error |
| TrustGraph.ContributionsParseFailure | zomes/hc_zome_trust_atom/src/trust_graph.rs:174-181 | a rated entry whose rating or value does not parse makes the second loop panic |
| TrustGraph.WeighValues | zomes/hc_zome_trust_atom/src/trust_graph.rs:174-181 | the second loop computes `Contributions` |
| TrustGraph.Blend | zomes/hc_zome_trust_atom/src/trust_graph.rs:193-228 | the value is a finite number exactly when every contribution is finite and there is the calling agent's rating or at least one contribution |
| TrustGraph.BlendWithOwnRating | zomes/hc_zome_trust_atom/src/trust_graph.rs:202-204 | with its own rating p and weighted sum s, the value is 0.8·p + 0.2·s |
| TrustGraph.BlendWithoutOwnRating | zomes/hc_zome_trust_atom/src/trust_graph.rs:215-218 | without its own rating, the value is the weighted sum over the number of contributions, and not a number when there are none |
| TrustGraph.BlendNothing | zomes/hc_zome_trust_atom/src/trust_graph.rs:202-204 | with no contributions, its own rating p becomes 0.8·p |
| TrustGraph.BlendExamples | zomes/hc_zome_trust_atom/src/trust_graph.rs:202-218 | worked figures 0.66, 0.6 and 0.952 (the last with own rating 0.99 and one contributor rating 0.80) |
| TrustGraph.WeightedSum | zomes/hc_zome_trust_atom/src/trust_graph.rs:176-193 | the sum of `w/phi_sum·v` is the sum of the products `w·v` over `phi_sum` |
| TrustGraph.WeightedStep | zomes/hc_zome_trust_atom/src/trust_graph.rs:176-193 | adding one more weighted value to the running sum adds its product over `phi_sum` |
| TrustGraph.ContributionsSum | zomes/hc_zome_trust_atom/src/trust_graph.rs:174-193 | the weighted sum of an inner map is its weight-value products over the weight sum |
| TrustGraph.DotOfConstant | zomes/hc_zome_trust_atom/src/trust_graph.rs:176-193 | weighting one repeated value gives that value times the weight sum |
| TrustGraph.RatedValuesConstant | zomes/hc_zome_trust_atom/src/trust_graph.rs:174-181 | when every rated entry gives the same value, all rated values are that value |
| TrustGraph.UnanimousWeightedSum | zomes/hc_zome_trust_atom/src/trust_graph.rs:145-193 | the normalised weights add up to one: when all weighted agents give value v, the weighted sum is v |
| TrustGraph.UnanimousSum | zomes/hc_zome_trust_atom/src/trust_graph.rs:176-193 | normalised weighting of a repeated value v sums to v |
| TrustGraph.RollupExtra | zomes/hc_zome_trust_atom/src/trust_graph.rs:166-188 | with no sourced atoms there is no extra; an extra is the hash `create_extra` returns for the JSON of a non-empty sourced map |
| TrustGraph.RollupContent | zomes/hc_zome_trust_atom/src/trust_graph.rs:195-201 | the content is none without a latest link from the calling agent to the subject, and otherwise that link's decoded content or its decoding failure |
| TrustGraph.GoldArgs | zomes/hc_zome_trust_atom/src/trust_graph.rs:143-201 | a successful body has the rollup content and the extra computed from the first loop's sourced map |
| TrustGraph.GoldArgsBlend | zomes/hc_zome_trust_atom/src/trust_graph.rs:142-228 | the rollup value is the blend of the calling agent's parsed rating, if any, with the contributions weighted by the first loop's sum, and an extra is attached only with a non-empty sourced map |
| TrustGraph.GoldValueWithOwnRating | zomes/hc_zome_trust_atom/src/trust_graph.rs:202-204 | own rating p and all agents agreeing on v give 0.8·p + 0.2·v |
| TrustGraph.GoldValueWithoutContributors | zomes/hc_zome_trust_atom/src/trust_graph.rs:202-204 | a subject without weighted entries that the agent rated p still gets an atom, with value 0.8·p |
| TrustGraph.GoldValueWithoutAnyRating | zomes/hc_zome_trust_atom/src/trust_graph.rs:215-218 | a subject without weighted entries and without an own rating gets an atom whose value is not a number |
| TrustGraph.GoldAtom | zomes/hc_zome_trust_atom/src/trust_graph.rs:202-228 | a rollup atom is `create_trust_atom` by the calling agent about the subject, with prefix "rollup", the content, the formatted value and the extra; a failure before it is passed on |
| TrustGraph.RollupAtomFor | zomes/hc_zome_trust_atom/src/trust_graph.rs:143-228 | the body of the gold loop computes `GoldAtom` |
| TrustGraph.Gold | zomes/hc_zome_trust_atom/src/trust_graph.rs:137-232 | on success, one rollup atom per silver entry in key order; on failure, the error of the first subject that fails |
| TrustGraph.BuildRollupGold | zomes/hc_zome_trust_atom/src/trust_graph.rs:137-232 | `build_rollup_gold` computes `Gold`, the rollup atom of each silver key in key order or the first failure |
| TrustGraph.RollupAtoms | zomes/hc_zome_trust_atom/src/trust_graph.rs:15-39 | a failed `query_mine` or silver step ends the rollup with its error; otherwise the result is the gold step over the silver map |
| TrustGraph.RollupAtomsPerSubject | zomes/hc_zome_trust_atom/src/trust_graph.rs:15-39 | a successful rollup makes one atom per silver subject, in key order, each by the calling agent about that subject with prefix "rollup"; the subjects are the targets of its own atoms not marked "agent" that are not listed agents |
| TrustGraph.CreateRollupAtoms | zomes/hc_zome_trust_atom/src/trust_graph.rs:15-39 | `create_rollup_atoms` computes `RollupAtoms` |

## Left out

- TrustAtoms.LinkTag: the MessagePack header that `SerializedBytes` puts in front of a
  tag is modelled as one fixed byte. In the program it is 0xA0 plus the length for texts
  under 32 bytes, and 0xD9 and a length byte for texts up to 255 bytes. The decoder drops
  one byte. So the decoding of `[1..]`, `ForwardRoundTrip` and `QueryAfterCreate` hold in
  the program only for tag texts under 32 bytes; a longer tag keeps a length byte in
  front of "Ŧ" and decodes differently. Because the header holds the length, a content
  filter in the program matches only a tag text of the same length. The model's fixed
  header lets any text that starts with the filter match (`TargetQueryAfterCreateFails`,
  `FilterSelectsTag`). The serialization error of `link_tag` cannot happen for a string
  and is not modelled.
- `f64` is a real number. Rounding, overflow, and the parsing of "NaN", "inf" or exponent
  forms are not modelled. Parsing, `powf(1.618)` and `to_string` are parameters, so no
  result depends on how they behave.
- TrustGraph.Blend: NaN and the infinities are collapsed into one `NotFinite` value, so
  the model does not tell apart +∞, −∞ and NaN.
- The store writes that `create_trust_atom` and `create_extra` make during the gold loop
  are not modelled. The loop reads only links that existed before, and no later read
  depends on those writes. Each call is a parameter that returns the atom or the hash.
- Failures of the `agent_info`, `get_links` and `create_link` host calls are not
  modelled. The agent key is a parameter, and `get_links` reads a snapshot of the store.
  `TrustAtoms.Create` always appends both links. In the program a failed first
  `create_link` (trust_atom.rs:59-63) returns before the backward link is written, and a
  failed second one (trust_atom.rs:70) leaves the forward link alone in the store.
- `create_string_target` is not modelled. It writes an entry and hashes it, and both are
  host calls outside the link store.
- `debug!` logging is not modelled.
- The `min_rating` argument of `query` is accepted and ignored, as in the code.
- TrustGraph.BuildAgentList returns the list itself, not a Result, because
  `build_agent_list` never fails.
- TrustGraph.RatedValues stands an unparsable value as 0. The rollup stops on such a
  value anyway (`ContributionsParseFailure`: `Contributions` panics), so the stand-in
  never reaches a result.
- A link timestamp is one integer. Holochain's seconds-and-nanoseconds pair is not
  modelled; only its order matters to `get_latest`.
- `zomes/hc_zome_trust_atom/src/lib.rs` (the extern wrappers), the integrity zome's
  entry definitions and the tests are not part of this model.
