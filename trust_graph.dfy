/**
  The rollup of zomes/hc_zome_trust_atom/src/trust_graph.rs: from the calling agent's own
  trust atoms, find the agents it rated, gather what those agents said about each other
  subject ("silver"), and blend it into one "rollup" atom per subject ("gold").

  trust_graph.rs is written against a newer trust_atom.rs than the one modelled in
  TrustAtoms: its atoms carry optional `prefix`, `content` and `value`, and it calls
  `query_mine`, `convert_link_to_trust_atom`, `create_link_tag`, `create_extra` and
  `create_trust_atom` of that newer file. Those calls, together with `f64` parsing,
  `powf(1.618)`, `f64::to_string` and `serde_json::to_string`, are the fields of `Api`.
*/
module TrustGraph {
  import opened Wrappers
  import opened Utf8
  import opened HoloHash
  import opened BTreeMap
  import opened Hdk
  import opened Latest
  import TA = TrustAtoms

  /** The fields of the newer trust atom that trust_graph.rs reads or writes. */
  datatype TrustAtom = TrustAtom(
    sourceEntryHash: EntryHash,
    targetEntryHash: EntryHash,
    prefix: Option<string>,
    content: Option<string>,
    value: Option<string>,
    extra: Option<map<string, string>>)

  /** What one rated agent said about one subject, with the calling agent's rating of it. */
  datatype RollupData = RollupData(content: string, value: string, agentRating: Option<string>)

  /** An `f64` as far as the rollup needs it: a finite number, or one of the infinities and
      NaN, which the rollup never tells apart. */
  datatype F64 = Num(r: real) | NotFinite

  /** The calls into code outside this model. */
  datatype Api = Api(
    queryMine: seq<Link> -> ExternResult<seq<TrustAtom>>,
    convertLinkToTrustAtom: (Link, TA.LinkDirection, EntryHash) -> ExternResult<TrustAtom>,
    createLinkTag: (TA.LinkDirection, seq<Option<string>>) -> seq<byte>,
    createExtra: string -> ExternResult<string>,
    createTrustAtom: (EntryHash, EntryHash, Option<string>, Option<string>, Option<string>, Option<string>) -> ExternResult<TrustAtom>,
    parseF64: string -> Option<real>,
    powPhi: real -> real,
    formatF64: F64 -> string,
    sourcedToJson: map<string, string> -> Option<string>)

  predicate NoDuplicates<T(==)>(s: seq<T>)
  {
    forall i, j :: 0 <= i < j < |s| ==> s[i] != s[j]
  }

  // ---------------------------------------------------------------------------------------
  // Floating point, as real arithmetic with non-finite results collapsed.

  function Add(a: F64, b: F64): F64
  {
    if a.Num? && b.Num? then Num(a.r + b.r) else NotFinite
  }

  function Mul(a: F64, b: F64): F64
  {
    if a.Num? && b.Num? then Num(a.r * b.r) else NotFinite
  }

  /** Division; dividing by zero gives an infinity or NaN. */
  function Div(a: F64, b: F64): F64
  {
    if a.Num? && b.Num? && b.r != 0.0 then Num(a.r / b.r) else NotFinite
  }

  function RealSum(xs: seq<real>): real
    decreases |xs|
  {
    if |xs| == 0 then 0.0 else RealSum(xs[..|xs| - 1]) + xs[|xs| - 1]
  }

  /** The numbers of a sequence of `f64`s, with 0 standing for a value that is not finite. */
  function Reals(xs: seq<F64>): (rs: seq<real>)
    ensures |rs| == |xs|
    ensures forall i :: 0 <= i < |xs| && xs[i].Num? ==> rs[i] == xs[i].r
    decreases |xs|
  {
    if |xs| == 0 then []
    else Reals(xs[..|xs| - 1]) + [if xs[|xs| - 1].Num? then xs[|xs| - 1].r else 0.0]
  }

  /** `iter().sum()` of `f64`s, from 0: finite exactly when every term is. */
  function SumF64(xs: seq<F64>): (r: F64)
    ensures r.Num? <==> forall i :: 0 <= i < |xs| ==> xs[i].Num?
    decreases |xs|
  {
    if |xs| == 0 then Num(0.0) else Add(SumF64(xs[..|xs| - 1]), xs[|xs| - 1])
  }

  /** A finite `iter().sum()` is the sum of the numbers. */
  lemma {:induction false} SumF64IsRealSum(xs: seq<F64>)
    ensures SumF64(xs).Num? ==> SumF64(xs) == Num(RealSum(Reals(xs)))
    decreases |xs|
  {
    if |xs| > 0 {
      var init := xs[..|xs| - 1];
      SumF64IsRealSum(init);
      assert Reals(xs)[..|xs| - 1] == Reals(init);
    }
  }

  // ---------------------------------------------------------------------------------------
  // get_rating

  /** `get_rating(base, target, filter)`: the value of the latest link from `base` to
      `target`, decoded as a forward atom; none when there is no such link. */
  function GetRating(api: Api, store: seq<Link>, base: EntryHash, target: EntryHash, filter: Option<seq<byte>>): (r: ExternResult<Option<string>>)
    ensures LatestLink(store, base, target, filter).None? ==> r == Ok(None)
    ensures r.Err? ==> api.convertLinkToTrustAtom(LatestLink(store, base, target, filter).value, TA.Forward, base) == Err(r.error)
  {
    match LatestLink(store, base, target, filter)
    case None => Ok(None)
    case Some(latest) =>
      var atom :- api.convertLinkToTrustAtom(latest, TA.Forward, base);
      Ok(atom.value)
  }

  /** There is no rating when no fetched link points at the target. Otherwise the rating,
      or its failure, is that of decoding one link: a fetched link to the target with the
      greatest timestamp, and the last such link in fetch order. */
  lemma GetRatingIsLatestValue(api: Api, store: seq<Link>, base: EntryHash, target: EntryHash, filter: Option<seq<byte>>)
    ensures var r := GetRating(api, store, base, target, filter);
      var c := Candidates(store, base, target, filter);
      && ((forall l :: l in store && Selects(l, base, filter) ==> l.target != target) ==> r == Ok(None))
      && ((exists l :: l in store && Selects(l, base, filter) && l.target == target) ==>
            exists i :: 0 <= i < |c|
              && c[i] in store && Selects(c[i], base, filter) && c[i].target == target
              && (forall k :: k in store && Selects(k, base, filter) && k.target == target ==> k.timestamp <= c[i].timestamp)
              && (forall j :: i < j < |c| ==> c[j].timestamp < c[i].timestamp)
              && var atom := api.convertLinkToTrustAtom(c[i], TA.Forward, base);
                 && (atom.Ok? ==> r == Ok(atom.value.value))
                 && (atom.Err? ==> r == Err(atom.error)))
  {
    LatestLinkIsLastMaximum(store, base, target, filter);
    var c := Candidates(store, base, target, filter);
    if |c| > 0 {
      SortedLastIsLastMaximum(c);
      var i := LastMaxIndex(c);
      assert LatestLink(store, base, target, filter) == Some(c[i]);
      assert c[i] in c;
    }
  }

  // ---------------------------------------------------------------------------------------
  // build_agent_list

  /** The agents of `build_agent_list`: the targets of the atoms that have a prefix, each
      once, in order of first appearance. */
  function AgentList(atoms: seq<TrustAtom>): (agents: seq<EntryHash>)
    ensures forall h :: h in agents <==> exists a :: a in atoms && a.prefix.Some? && a.targetEntryHash == h
    ensures NoDuplicates(agents)
    decreases |atoms|
  {
    if |atoms| == 0 then []
    else
      var init := atoms[..|atoms| - 1];
      var atom := atoms[|atoms| - 1];
      assert atoms == init + [atom];
      var agents := AgentList(init);
      if atom.prefix.Some? && atom.targetEntryHash !in agents then agents + [atom.targetEntryHash] else agents
  }

  /** Agents are only ever appended: the list built from a prefix of the atoms is a prefix
      of the whole list, so the list is in order of first appearance. */
  lemma {:induction false} AgentListGrows(atoms: seq<TrustAtom>, k: nat)
    requires k <= |atoms|
    ensures AgentList(atoms[..k]) <= AgentList(atoms)
    decreases |atoms| - k
  {
    if k < |atoms| {
      AgentListGrows(atoms, k + 1);
      assert atoms[..k + 1][..k] == atoms[..k];
    } else {
      assert atoms[..k] == atoms;
    }
  }

  /** `build_agent_list`. */
  method BuildAgentList(atoms: seq<TrustAtom>) returns (agents: seq<EntryHash>)
    ensures agents == AgentList(atoms)
  {
    agents := [];
    for i := 0 to |atoms|
      invariant agents == AgentList(atoms[..i])
    {
      assert atoms[..i + 1][..i] == atoms[..i];
      var targetHash := atoms[i].targetEntryHash;
      if atoms[i].prefix.Some? {
        if targetHash !in agents {
          agents := agents + [targetHash];
        }
      }
    }
    assert atoms[..|atoms|] == atoms;
  }

  // ---------------------------------------------------------------------------------------
  // build_rollup_silver

  const AGENT_PREFIX: string := "agent"
  const ROLLUP_PREFIX: string := "rollup"

  /** The subjects of the silver rollup: the targets of the atoms not marked as agents. */
  function SilverTargets(atoms: seq<TrustAtom>): (targets: seq<EntryHash>)
    ensures |targets| <= |atoms|
    ensures forall h :: h in targets <==> exists a :: a in atoms && a.prefix != Some(AGENT_PREFIX) && a.targetEntryHash == h
    decreases |atoms|
  {
    if |atoms| == 0 then []
    else
      var init := atoms[..|atoms| - 1];
      var atom := atoms[|atoms| - 1];
      assert atoms == init + [atom];
      SilverTargets(init) + if atom.prefix != Some(AGENT_PREFIX) then [atom.targetEntryHash] else []
  }

  /** `links_latest`: for each fetched link in turn, `latestTo` of that link's target (in
      the rollup, the latest link from the subject to it), kept the first time it turns up. */
  function LatestLinks(latestTo: EntryHash -> Option<Link>, links: seq<Link>): (r: seq<Link>)
    ensures NoDuplicates(r)
    ensures forall l :: l in r ==> exists k :: 0 <= k < |links| && latestTo(links[k].target) == Some(l)
    ensures forall k :: 0 <= k < |links| && latestTo(links[k].target).Some? ==> latestTo(links[k].target).value in r
    decreases |links|
  {
    if |links| == 0 then []
    else
      var init := links[..|links| - 1];
      var last := links[|links| - 1];
      var r := LatestLinks(latestTo, init);
      var found := latestTo(last.target);
      var r' := if found.Some? && found.value !in r then r + [found.value] else r;
      assert NoDuplicates(r') by {
        if r' != r {
          forall i, j | 0 <= i < j < |r'| ensures r'[i] != r'[j] {
            if j == |r| { assert r'[i] in r; }
          }
        }
      }
      assert forall l :: l in r' ==> l in r || found == Some(l);
      assert forall k :: 0 <= k < |init| ==> init[k] == links[k];
      r'
  }

  /** The latest link from `target` to each other entry, under the tag filter. */
  function LatestFrom(store: seq<Link>, target: EntryHash, filter: Option<seq<byte>>): EntryHash -> Option<Link>
  {
    (t: EntryHash) => LatestLink(store, target, t, filter)
  }

  /** The tag filter under which the calling agent's rating of an agent is read: forward
      links whose content is the content that agent spoke about. */
  function RatingFilter(api: Api, content: string): seq<byte>
  {
    api.createLinkTag(TA.Forward, [None, Some(content)])
  }

  /** The atoms the loop over `trust_atoms_latest` looks at: from an agent in the list,
      with content and value. */
  predicate Rated(agents: seq<EntryHash>, atom: TrustAtom)
  {
    atom.sourceEntryHash in agents && atom.content.Some? && atom.value.Some?
  }

  /** How the calling agent rated an agent on a content: `get_rating` of the calling agent,
      the rated agent and the `RatingFilter` of the content. */
  type Rating = (EntryHash, string) -> ExternResult<Option<string>>

  function MyRating(api: Api, store: seq<Link>, me: EntryHash): Rating
  {
    (agent: EntryHash, content: string) => GetRating(api, store, me, agent, Some(RatingFilter(api, content)))
  }

  /** The calling agent's latest rating of the source of `atom`, on the atom's content. */
  function AtomRating(rate: Rating, atom: TrustAtom): ExternResult<Option<string>>
    requires atom.content.Some?
  {
    rate(atom.sourceEntryHash, atom.content.value)
  }

  /** A looked-at atom whose rating cannot be read: the read fails, or the rating found does
      not parse as a number. */
  predicate Unreadable(api: Api, rate: Rating, agents: seq<EntryHash>, atom: TrustAtom)
  {
    && Rated(agents, atom)
    && var rating := AtomRating(rate, atom);
       rating.Err? || (rating.value.Some? && api.parseF64(rating.value.value).None?)
  }

  /** The error an unreadable atom stops the rollup with. */
  function ReadError(api: Api, rate: Rating, agents: seq<EntryHash>, atom: TrustAtom): WasmError
    requires Unreadable(api, rate, agents, atom)
  {
    var rating := AtomRating(rate, atom);
    if rating.Err? then rating.error else Panic(ParseError)
  }

  /** A looked-at atom whose source the calling agent rated with a positive number. */
  predicate Contributor(api: Api, rate: Rating, agents: seq<EntryHash>, atom: TrustAtom)
  {
    && Rated(agents, atom)
    && var rating := AtomRating(rate, atom);
       && rating.Ok? && rating.value.Some?
       && api.parseF64(rating.value.value).Some?
       && api.parseF64(rating.value.value).value > 0.0
  }

  /** The inner-map entry a contributing atom makes: its source, with its content and value
      and the calling agent's rating of the source. */
  function Contribution(api: Api, rate: Rating, agents: seq<EntryHash>, atom: TrustAtom): (EntryHash, RollupData)
    requires Contributor(api, rate, agents, atom)
  {
    (atom.sourceEntryHash, RollupData(atom.content.value, atom.value.value, AtomRating(rate, atom).value))
  }

  /** The body of the loop over `trust_atoms_latest`: one atom of what an agent said about
      the subject. */
  function RateOne(api: Api, rate: Rating, agents: seq<EntryHash>,
                   m: Entries<RollupData>, atom: TrustAtom): (r: ExternResult<Entries<RollupData>>)
    requires Ordered(m)
    ensures r.Err? <==> Unreadable(api, rate, agents, atom)
    ensures r.Err? ==> r.error == ReadError(api, rate, agents, atom)
    ensures r.Ok? ==> Ordered(r.value)
  {
    if Rated(agents, atom) then
      var agentRating :- AtomRating(rate, atom);
      match agentRating
      case None => Ok(m)
      case Some(rating) =>
        match api.parseF64(rating)
        case None => Err(Panic(ParseError))
        case Some(parsed) =>
          if parsed > 0.0 then Ok(Insert(m, atom.sourceEntryHash, RollupData(atom.content.value, atom.value.value, Some(rating))))
          else Ok(m)
    else Ok(m)
  }

  /** A successful step puts the contribution of a contributing atom in its source's place
      and leaves the map alone otherwise. */
  lemma RateOneEntries(api: Api, rate: Rating, agents: seq<EntryHash>, m: Entries<RollupData>, atom: TrustAtom)
    requires Ordered(m) && RateOne(api, rate, agents, m, atom).Ok?
    ensures var r := RateOne(api, rate, agents, m, atom).value;
      && (Contributor(api, rate, agents, atom) ==>
            r == Insert(m, atom.sourceEntryHash, Contribution(api, rate, agents, atom).1))
      && (!Contributor(api, rate, agents, atom) ==> r == m)
      && Keys(r) == Keys(m) + (if Contributor(api, rate, agents, atom) then {atom.sourceEntryHash} else {})
      && forall e :: e in r ==>
           || (Contributor(api, rate, agents, atom) && e == Contribution(api, rate, agents, atom))
           || (e in m && (Contributor(api, rate, agents, atom) ==> e.0 != atom.sourceEntryHash))
  {
  }

  /** The inner map of one subject: the loop over `trust_atoms_latest`, from empty. */
  function RateAll(api: Api, rate: Rating, agents: seq<EntryHash>, atoms: seq<TrustAtom>): (r: ExternResult<Entries<RollupData>>)
    ensures r.Ok? ==> Ordered(r.value)
    decreases |atoms|
  {
    if |atoms| == 0 then Ok([])
    else
      var m :- RateAll(api, rate, agents, atoms[..|atoms| - 1]);
      RateOne(api, rate, agents, m, atoms[|atoms| - 1])
  }

  /** Rating succeeds exactly when no atom is unreadable. */
  lemma {:induction false} RateAllOk(api: Api, rate: Rating, agents: seq<EntryHash>, atoms: seq<TrustAtom>)
    ensures RateAll(api, rate, agents, atoms).Ok? <==>
              forall i :: 0 <= i < |atoms| ==> !Unreadable(api, rate, agents, atoms[i])
    decreases |atoms|
  {
    if |atoms| > 0 {
      var n := |atoms| - 1;
      var init := atoms[..n];
      RateAllOk(api, rate, agents, init);
      var prior := RateAll(api, rate, agents, init);
      if prior.Err? {
        var i :| 0 <= i < n && Unreadable(api, rate, agents, init[i]);
        assert init[i] == atoms[i];
      } else {
        assert RateAll(api, rate, agents, atoms) == RateOne(api, rate, agents, prior.value, atoms[n]);
        forall i | 0 <= i < n ensures init[i] == atoms[i] { }
      }
    }
  }

  /** A failure while rating stops the rest. */
  lemma {:induction false} RateAllFails(api: Api, rate: Rating, agents: seq<EntryHash>, atoms: seq<TrustAtom>, k: nat)
    requires k <= |atoms| && RateAll(api, rate, agents, atoms[..k]).Err?
    ensures RateAll(api, rate, agents, atoms) == RateAll(api, rate, agents, atoms[..k])
    decreases |atoms| - k
  {
    if k < |atoms| {
      assert atoms[..k + 1][..k] == atoms[..k];
      RateAllFails(api, rate, agents, atoms, k + 1);
    } else {
      assert atoms[..k] == atoms;
    }
  }

  /** The first unreadable atom decides the error: a failed read passes its error on, a
      rating that does not parse panics. */
  lemma RateAllFirstError(api: Api, rate: Rating, agents: seq<EntryHash>, atoms: seq<TrustAtom>, i: nat)
    requires i < |atoms| && Unreadable(api, rate, agents, atoms[i])
    requires forall j :: 0 <= j < i ==> !Unreadable(api, rate, agents, atoms[j])
    ensures RateAll(api, rate, agents, atoms) == Err(ReadError(api, rate, agents, atoms[i]))
  {
    var prefix := atoms[..i + 1];
    assert prefix[..i] == atoms[..i];
    assert forall j :: 0 <= j < i ==> atoms[..i][j] == atoms[j];
    RateAllOk(api, rate, agents, atoms[..i]);
    assert prefix[i] == atoms[i];
    RateAllFails(api, rate, agents, atoms, i + 1);
  }

  /** Among the first `k` atoms, the keys of `m` are exactly the sources of the contributing
      atoms. */
  ghost predicate SourcesUpTo(api: Api, rate: Rating, agents: seq<EntryHash>, atoms: seq<TrustAtom>, k: nat, m: Entries<RollupData>)
    requires k <= |atoms|
  {
    forall h :: h in Keys(m) <==>
      exists i :: 0 <= i < k && Contributor(api, rate, agents, atoms[i]) && atoms[i].sourceEntryHash == h
  }

  /** Among the first `k` atoms, every entry of `m` is the contribution of a contributing
      atom, and of the last one from that source. */
  ghost predicate OriginUpTo(api: Api, rate: Rating, agents: seq<EntryHash>, atoms: seq<TrustAtom>, k: nat, m: Entries<RollupData>)
    requires k <= |atoms|
  {
    forall e :: e in m ==>
      exists i :: 0 <= i < k && Contributor(api, rate, agents, atoms[i])
        && e == Contribution(api, rate, agents, atoms[i])
        && forall j :: i < j < k && Contributor(api, rate, agents, atoms[j]) ==> atoms[j].sourceEntryHash != e.0
  }

  lemma SourcesStep(api: Api, rate: Rating, agents: seq<EntryHash>, atoms: seq<TrustAtom>, k: nat, m: Entries<RollupData>, r: Entries<RollupData>)
    requires k < |atoms| && SourcesUpTo(api, rate, agents, atoms, k, m)
    requires Keys(r) == Keys(m) + if Contributor(api, rate, agents, atoms[k]) then {atoms[k].sourceEntryHash} else {}
    ensures SourcesUpTo(api, rate, agents, atoms, k + 1, r)
  {
    forall h | exists i :: 0 <= i < k + 1 && Contributor(api, rate, agents, atoms[i]) && atoms[i].sourceEntryHash == h
      ensures h in Keys(r)
    {
      var i :| 0 <= i < k + 1 && Contributor(api, rate, agents, atoms[i]) && atoms[i].sourceEntryHash == h;
      if i < k { assert h in Keys(m); }
    }
  }

  lemma OriginStep(api: Api, rate: Rating, agents: seq<EntryHash>, atoms: seq<TrustAtom>, k: nat, m: Entries<RollupData>, r: Entries<RollupData>)
    requires k < |atoms| && OriginUpTo(api, rate, agents, atoms, k, m)
    requires forall e :: e in r ==>
               || (Contributor(api, rate, agents, atoms[k]) && e == Contribution(api, rate, agents, atoms[k]))
               || (e in m && (Contributor(api, rate, agents, atoms[k]) ==> e.0 != atoms[k].sourceEntryHash))
    ensures OriginUpTo(api, rate, agents, atoms, k + 1, r)
  {
    forall e | e in r
      ensures exists i :: 0 <= i < k + 1 && Contributor(api, rate, agents, atoms[i])
                && e == Contribution(api, rate, agents, atoms[i])
                && forall j :: i < j < k + 1 && Contributor(api, rate, agents, atoms[j]) ==> atoms[j].sourceEntryHash != e.0
    {
      if !(Contributor(api, rate, agents, atoms[k]) && e == Contribution(api, rate, agents, atoms[k])) {
        var i :| 0 <= i < k && Contributor(api, rate, agents, atoms[i])
                 && e == Contribution(api, rate, agents, atoms[i])
                 && forall j :: i < j < k && Contributor(api, rate, agents, atoms[j]) ==> atoms[j].sourceEntryHash != e.0;
        assert forall j :: i < j < k + 1 && Contributor(api, rate, agents, atoms[j]) ==> atoms[j].sourceEntryHash != e.0;
      }
    }
  }

  /** What the rating of the first `k` atoms holds, by induction on `k`. */
  lemma {:induction false} RateAllPrefix(api: Api, rate: Rating, agents: seq<EntryHash>, atoms: seq<TrustAtom>, k: nat)
    requires k <= |atoms| && RateAll(api, rate, agents, atoms[..k]).Ok?
    ensures SourcesUpTo(api, rate, agents, atoms, k, RateAll(api, rate, agents, atoms[..k]).value)
    ensures OriginUpTo(api, rate, agents, atoms, k, RateAll(api, rate, agents, atoms[..k]).value)
    decreases k
  {
    if k > 0 {
      assert atoms[..k][..k - 1] == atoms[..k - 1];
      assert atoms[..k][k - 1] == atoms[k - 1];
      var m := RateAll(api, rate, agents, atoms[..k - 1]).value;
      var r := RateAll(api, rate, agents, atoms[..k]).value;
      RateAllPrefix(api, rate, agents, atoms, k - 1);
      RateOneEntries(api, rate, agents, m, atoms[k - 1]);
      SourcesStep(api, rate, agents, atoms, k - 1, m, r);
      OriginStep(api, rate, agents, atoms, k - 1, m, r);
    }
  }

  /** The keys of a successful rating are exactly the sources of the contributing atoms. */
  lemma RateAllKeys(api: Api, rate: Rating, agents: seq<EntryHash>, atoms: seq<TrustAtom>)
    requires RateAll(api, rate, agents, atoms).Ok?
    ensures forall h :: h in Keys(RateAll(api, rate, agents, atoms).value) <==>
              exists i :: 0 <= i < |atoms| && Contributor(api, rate, agents, atoms[i]) && atoms[i].sourceEntryHash == h
  {
    assert atoms[..|atoms|] == atoms;
    RateAllPrefix(api, rate, agents, atoms, |atoms|);
  }

  /** Every entry of a successful rating is the contribution of a contributing atom, and of
      the last one from that source. */
  lemma RateAllOrigin(api: Api, rate: Rating, agents: seq<EntryHash>, atoms: seq<TrustAtom>)
    requires RateAll(api, rate, agents, atoms).Ok?
    ensures forall e :: e in RateAll(api, rate, agents, atoms).value ==>
              exists i :: 0 <= i < |atoms| && Contributor(api, rate, agents, atoms[i])
                && e == Contribution(api, rate, agents, atoms[i])
                && forall j :: i < j < |atoms| && Contributor(api, rate, agents, atoms[j]) ==> atoms[j].sourceEntryHash != e.0
  {
    assert atoms[..|atoms|] == atoms;
    RateAllPrefix(api, rate, agents, atoms, |atoms|);
  }

  /** The atoms of what was said about `target`: the latest link back from each entry it
      links to, decoded. */
  function SilverAtoms(api: Api, store: seq<Link>, target: EntryHash, linkFilter: seq<byte>): ExternResult<seq<TrustAtom>>
  {
    var links := GetLinks(store, target, Some(linkFilter));
    var linksLatest := LatestLinks(LatestFrom(store, target, Some(linkFilter)), links);
    Collect(linksLatest, (l: Link) => api.convertLinkToTrustAtom(l, TA.Reverse, target))
  }

  /** The inner map of the subject `target`. */
  function SilverMap(api: Api, store: seq<Link>, me: EntryHash, agents: seq<EntryHash>,
                     linkFilter: seq<byte>, target: EntryHash): (r: ExternResult<Entries<RollupData>>)
    ensures r.Ok? ==> Ordered(r.value)
    ensures r.Ok? ==> SilverAtoms(api, store, target, linkFilter).Ok?
                      && RateAll(api, MyRating(api, store, me), agents, SilverAtoms(api, store, target, linkFilter).value) == r
  {
    var atomsLatest :- SilverAtoms(api, store, target, linkFilter);
    RateAll(api, MyRating(api, store, me), agents, atomsLatest)
  }

  /** The loop over the silver targets: subjects that are agents are skipped, every other one
      is (re)inserted with its inner map. */
  function SilverFold(api: Api, store: seq<Link>, me: EntryHash, agents: seq<EntryHash>,
                      linkFilter: seq<byte>, targets: seq<EntryHash>): (r: ExternResult<Entries<Entries<RollupData>>>)
    ensures r.Ok? ==> Ordered(r.value)
    ensures r.Ok? ==> forall h :: h in Keys(r.value) <==> h in targets && h !in agents
    ensures r.Ok? ==> forall e :: e in r.value ==> SilverMap(api, store, me, agents, linkFilter, e.0) == Ok(e.1)
    decreases |targets|
  {
    if |targets| == 0 then Ok([])
    else
      var init := targets[..|targets| - 1];
      var target := targets[|targets| - 1];
      assert targets == init + [target];
      var silver :- SilverFold(api, store, me, agents, linkFilter, init);
      SilverStep(api, store, me, agents, linkFilter, silver, target)
  }

  /** One round of the loop over the silver targets. */
  function SilverStep(api: Api, store: seq<Link>, me: EntryHash, agents: seq<EntryHash>, linkFilter: seq<byte>,
                      silver: Entries<Entries<RollupData>>, target: EntryHash): (r: ExternResult<Entries<Entries<RollupData>>>)
    requires Ordered(silver)
    ensures r.Ok? ==> Ordered(r.value)
    ensures r.Ok? ==> Keys(r.value) == Keys(silver) + if target in agents then {} else {target}
    ensures r.Ok? ==> forall e :: e in r.value ==> e in silver || (e.0 == target && SilverMap(api, store, me, agents, linkFilter, target) == Ok(e.1))
  {
    if target in agents then Ok(silver)
    else
      var m :- SilverMap(api, store, me, agents, linkFilter, target);
      Ok(Insert(silver, target, m))
  }

  lemma {:induction false} SilverFoldFails(api: Api, store: seq<Link>, me: EntryHash, agents: seq<EntryHash>,
                                           linkFilter: seq<byte>, targets: seq<EntryHash>, k: nat)
    requires k <= |targets| && SilverFold(api, store, me, agents, linkFilter, targets[..k]).Err?
    ensures SilverFold(api, store, me, agents, linkFilter, targets) == SilverFold(api, store, me, agents, linkFilter, targets[..k])
    decreases |targets| - k
  {
    if k < |targets| {
      assert targets[..k + 1][..k] == targets[..k];
      SilverFoldFails(api, store, me, agents, linkFilter, targets, k + 1);
    } else {
      assert targets[..k] == targets;
    }
  }

  /** The tag filter of the silver walk. */
  function SilverLinkFilter(api: Api): seq<byte>
  {
    api.createLinkTag(TA.Reverse, [None])
  }

  /** `build_rollup_silver(me, atoms, agents)`: the keys are exactly the targets of the atoms
      not marked as agents that are not in the agent list, each with its inner map, empty or
      not. */
  function Silver(api: Api, store: seq<Link>, me: EntryHash, atoms: seq<TrustAtom>, agents: seq<EntryHash>): (r: ExternResult<Entries<Entries<RollupData>>>)
    ensures r.Ok? ==> Ordered(r.value)
    ensures r.Ok? ==> forall h :: h in Keys(r.value) <==>
              (exists a :: a in atoms && a.prefix != Some(AGENT_PREFIX) && a.targetEntryHash == h) && h !in agents
  {
    SilverFold(api, store, me, agents, SilverLinkFilter(api), SilverTargets(atoms))
  }

  /** Every inner map of the silver rollup is what was said about its subject, rated: the
      atoms said about the subject decode and none of them is unreadable, the keys are exactly
      the sources of the contributing atoms, and every entry is the contribution of one of
      them. */
  lemma SilverKeysAndEntries(api: Api, store: seq<Link>, me: EntryHash, atoms: seq<TrustAtom>, agents: seq<EntryHash>)
    requires Silver(api, store, me, atoms, agents).Ok?
    ensures var rate := MyRating(api, store, me);
      forall e :: e in Silver(api, store, me, atoms, agents).value ==>
      && SilverAtoms(api, store, e.0, SilverLinkFilter(api)).Ok?
      && var said := SilverAtoms(api, store, e.0, SilverLinkFilter(api)).value;
         && (forall a :: a in said ==> !Unreadable(api, rate, agents, a))
         && (forall h :: h in Keys(e.1) <==>
               exists a :: a in said && Contributor(api, rate, agents, a) && a.sourceEntryHash == h)
         && (forall d :: d in e.1 ==>
               exists a :: a in said && Contributor(api, rate, agents, a) && d == Contribution(api, rate, agents, a))
  {
    var silver := Silver(api, store, me, atoms, agents).value;
    var rate := MyRating(api, store, me);
    forall e | e in silver
      ensures SilverAtoms(api, store, e.0, SilverLinkFilter(api)).Ok?
      ensures var said := SilverAtoms(api, store, e.0, SilverLinkFilter(api)).value;
         && (forall a :: a in said ==> !Unreadable(api, rate, agents, a))
         && (forall h :: h in Keys(e.1) <==>
               exists a :: a in said && Contributor(api, rate, agents, a) && a.sourceEntryHash == h)
         && (forall d :: d in e.1 ==>
               exists a :: a in said && Contributor(api, rate, agents, a) && d == Contribution(api, rate, agents, a))
    {
      assert SilverMap(api, store, me, agents, SilverLinkFilter(api), e.0) == Ok(e.1);
      RatedAtoms(api, rate, agents, SilverAtoms(api, store, e.0, SilverLinkFilter(api)).value, e.1);
    }
  }

  /** A successful rating of `said` as facts about its atoms rather than their positions. */
  lemma RatedAtoms(api: Api, rate: Rating, agents: seq<EntryHash>, said: seq<TrustAtom>, m: Entries<RollupData>)
    requires RateAll(api, rate, agents, said) == Ok(m)
    ensures forall a :: a in said ==> !Unreadable(api, rate, agents, a)
    ensures forall h :: h in Keys(m) <==> exists a :: a in said && Contributor(api, rate, agents, a) && a.sourceEntryHash == h
    ensures forall d :: d in m ==> exists a :: a in said && Contributor(api, rate, agents, a) && d == Contribution(api, rate, agents, a)
  {
    RateAllOk(api, rate, agents, said);
    RateAllKeys(api, rate, agents, said);
    RateAllOrigin(api, rate, agents, said);
    forall a | a in said ensures !Unreadable(api, rate, agents, a) {
      var i :| 0 <= i < |said| && said[i] == a;
    }
    forall h | h in Keys(m)
      ensures exists a :: a in said && Contributor(api, rate, agents, a) && a.sourceEntryHash == h
    {
      var i :| 0 <= i < |said| && Contributor(api, rate, agents, said[i]) && said[i].sourceEntryHash == h;
      assert said[i] in said;
    }
    forall h | exists a :: a in said && Contributor(api, rate, agents, a) && a.sourceEntryHash == h
      ensures h in Keys(m)
    {
      var a :| a in said && Contributor(api, rate, agents, a) && a.sourceEntryHash == h;
      var i :| 0 <= i < |said| && said[i] == a;
    }
    forall d | d in m
      ensures exists a :: a in said && Contributor(api, rate, agents, a) && d == Contribution(api, rate, agents, a)
    {
      var i :| 0 <= i < |said| && Contributor(api, rate, agents, said[i]) && d == Contribution(api, rate, agents, said[i]);
      assert said[i] in said;
    }
  }

  /** The collection of `links_latest` over the fetched links. */
  method CollectLatestLinks(store: seq<Link>, target: EntryHash, filter: Option<seq<byte>>, links: seq<Link>) returns (linksLatest: seq<Link>)
    ensures linksLatest == LatestLinks(LatestFrom(store, target, filter), links)
  {
    linksLatest := [];
    for k := 0 to |links|
      invariant linksLatest == LatestLinks(LatestFrom(store, target, filter), links[..k])
    {
      assert links[..k + 1][..k] == links[..k];
      var latest := GetLatest(store, target, links[k].target, filter);
      if latest.Some? {
        if latest.value !in linksLatest {
          linksLatest := linksLatest + [latest.value];
        }
      }
    }
    assert links[..|links|] == links;
  }

  /** The loop over `trust_atoms_latest` that fills one inner map. */
  method RateLatestAtoms(api: Api, store: seq<Link>, me: EntryHash, agents: seq<EntryHash>, atoms: seq<TrustAtom>)
    returns (r: ExternResult<Entries<RollupData>>)
    ensures r == RateAll(api, MyRating(api, store, me), agents, atoms)
  {
    var m: Entries<RollupData> := [];
    for k := 0 to |atoms|
      invariant RateAll(api, MyRating(api, store, me), agents, atoms[..k]) == Ok(m)
    {
      assert atoms[..k + 1][..k] == atoms[..k];
      var next := RateLatestAtom(api, store, me, agents, m, atoms[k]);
      if next.Err? {
        RateAllFails(api, MyRating(api, store, me), agents, atoms, k + 1);
        return next;
      }
      m := next.value;
    }
    assert atoms[..|atoms|] == atoms;
    return Ok(m);
  }

  /** The body of the loop over `trust_atoms_latest`. */
  method RateLatestAtom(api: Api, store: seq<Link>, me: EntryHash, agents: seq<EntryHash>,
                        m: Entries<RollupData>, atom: TrustAtom) returns (r: ExternResult<Entries<RollupData>>)
    requires Ordered(m)
    ensures r == RateOne(api, MyRating(api, store, me), agents, m, atom)
  {
    var source := atom.sourceEntryHash;
    if source in agents && atom.content.Some? && atom.value.Some? {
      var filter := api.createLinkTag(TA.Forward, [None, Some(atom.content.value)]);
      var agentRating :- GetRating(api, store, me, source, Some(filter));
      assert RatingFilter(api, atom.content.value) == filter;
      assert MyRating(api, store, me)(source, atom.content.value) == GetRating(api, store, me, source, Some(filter));
      assert AtomRating(MyRating(api, store, me), atom) == Ok(agentRating);
      if agentRating.Some? {
        var rating := agentRating.value;
        var parsed := api.parseF64(rating);
        if parsed.None? {
          return Err(Panic(ParseError));
        }
        if parsed.value > 0.0 {
          return Ok(Insert(m, source, RollupData(atom.content.value, atom.value.value, Some(rating))));
        }
      }
    }
    return Ok(m);
  }

  /** The body of the loop over the silver targets, for a target that is not an agent: the
      latest link back from each entry it links to, decoded, then rated. */
  method BuildSilverMap(api: Api, store: seq<Link>, me: EntryHash, agents: seq<EntryHash>,
                        linkFilter: seq<byte>, target: EntryHash) returns (r: ExternResult<Entries<RollupData>>)
    ensures r == SilverMap(api, store, me, agents, linkFilter, target)
  {
    var links := GetLinks(store, target, Some(linkFilter));
    var linksLatest := CollectLatestLinks(store, target, Some(linkFilter), links);
    var atomsLatest :- Collect(linksLatest, (l: Link) => api.convertLinkToTrustAtom(l, TA.Reverse, target));
    r := RateLatestAtoms(api, store, me, agents, atomsLatest);
  }

  /** The body of the loop over the silver targets: agents are skipped, any other target
      gets its inner map. */
  method SilverRound(api: Api, store: seq<Link>, me: EntryHash, agents: seq<EntryHash>, linkFilter: seq<byte>,
                     rollupSilver: Entries<Entries<RollupData>>, target: EntryHash) returns (r: ExternResult<Entries<Entries<RollupData>>>)
    requires Ordered(rollupSilver)
    ensures r == SilverStep(api, store, me, agents, linkFilter, rollupSilver, target)
  {
    if target in agents {
      return Ok(rollupSilver);
    }
    var m :- BuildSilverMap(api, store, me, agents, linkFilter, target);
    return Ok(Insert(rollupSilver, target, m));
  }

  /** `build_rollup_silver(me, atoms, agents)`. */
  method BuildRollupSilver(api: Api, store: seq<Link>, me: EntryHash, atoms: seq<TrustAtom>, agents: seq<EntryHash>)
    returns (r: ExternResult<Entries<Entries<RollupData>>>)
    ensures r == Silver(api, store, me, atoms, agents)
  {
    var targets := SilverTargets(atoms);
    var linkFilter := SilverLinkFilter(api);
    r := SilverLoop(api, store, me, agents, linkFilter, targets);
  }

  /** The loop over the silver targets. */
  method SilverLoop(api: Api, store: seq<Link>, me: EntryHash, agents: seq<EntryHash>, linkFilter: seq<byte>, targets: seq<EntryHash>)
    returns (r: ExternResult<Entries<Entries<RollupData>>>)
    ensures r == SilverFold(api, store, me, agents, linkFilter, targets)
  {
    var rollupSilver: Entries<Entries<RollupData>> := [];
    for i := 0 to |targets|
      invariant SilverFold(api, store, me, agents, linkFilter, targets[..i]) == Ok(rollupSilver)
    {
      assert targets[..i + 1][..i] == targets[..i];
      var next := SilverRound(api, store, me, agents, linkFilter, rollupSilver, targets[i]);
      if next.Err? {
        SilverFoldFails(api, store, me, agents, linkFilter, targets, i + 1);
        return next;
      }
      rollupSilver := next.value;
    }
    assert targets[..|targets|] == targets;
    return Ok(rollupSilver);
  }

  // ---------------------------------------------------------------------------------------
  // build_rollup_gold

  /** The latest link from each entry to `target`, under the tag filter. */
  function LatestTo(store: seq<Link>, target: EntryHash, filter: Option<seq<byte>>): EntryHash -> Option<Link>
  {
    (base: EntryHash) => LatestLink(store, base, target, filter)
  }

  /** The agents' ratings of the subject, weighted: `rating^1.618` for each rated entry. */
  function PhiWeights(api: Api, m: Entries<RollupData>): (ws: seq<real>)
    decreases |m|
  {
    if |m| == 0 then []
    else
      var ws := PhiWeights(api, m[..|m| - 1]);
      var data := m[|m| - 1].1;
      match data.agentRating
      case None => ws
      case Some(rating) =>
        match api.parseF64(rating)
        case None => ws
        case Some(parsed) => ws + [api.powPhi(parsed)]
  }

  /** The values the rated entries give the subject, in the order of `PhiWeights`; an
      unparsable value, on which the rollup stops, stands as 0. */
  function RatedValues(api: Api, m: Entries<RollupData>): (vs: seq<real>)
    ensures |vs| == |PhiWeights(api, m)|
    decreases |m|
  {
    if |m| == 0 then []
    else
      var vs := RatedValues(api, m[..|m| - 1]);
      var data := m[|m| - 1].1;
      match data.agentRating
      case None => vs
      case Some(rating) =>
        match api.parseF64(rating)
        case None => vs
        case Some(_) =>
          match api.parseF64(data.value)
          case None => vs + [0.0]
          case Some(value) => vs + [value]
  }

  /** The sum of the products of two sequences of equal length. */
  function Dot(ws: seq<real>, vs: seq<real>): real
    requires |ws| == |vs|
    decreases |ws|
  {
    if |ws| == 0 then 0.0 else Dot(ws[..|ws| - 1], vs[..|vs| - 1]) + ws[|ws| - 1] * vs[|vs| - 1]
  }

  /** The first loop over an inner map: the sum of the weights, and the map from each
      agent with a latest link to the subject to that link's decoded source and target. */
  function FirstPass(api: Api, latestTo: EntryHash -> Option<Link>, m: Entries<RollupData>): (r: ExternResult<(real, map<string, string>)>)
    ensures r.Ok? ==> r.value.0 == RealSum(PhiWeights(api, m))
    ensures r.Ok? ==> (|r.value.1| > 0 <==> exists e :: e in m && latestTo(e.0).Some?)
    decreases |m|
  {
    if |m| == 0 then Ok((0.0, map[]))
    else
      var init := m[..|m| - 1];
      var agent := m[|m| - 1].0;
      var data := m[|m| - 1].1;
      assert m == init + [(agent, data)];
      var acc :- FirstPass(api, latestTo, init);
      var r := FirstPassEntry(api, latestTo(agent), agent, data, acc);
      SourcedGrows(api, latestTo(agent), agent, data, acc);
      r
  }

  /** One round of the first loop, for the entry of `agent` whose latest link to the subject
      is `latest`, on the running sum and map `acc`. */
  function FirstPassEntry(api: Api, latest: Option<Link>, agent: EntryHash, data: RollupData,
                          acc: (real, map<string, string>)): ExternResult<(real, map<string, string>)>
  {
    var phiSum :-
      match data.agentRating
      case None => Ok(acc.0)
      case Some(rating) =>
        match api.parseF64(rating)
        case None => Err(Panic(ParseError))
        case Some(parsed) => Ok(acc.0 + api.powPhi(parsed));
    match latest
    case None => Ok((phiSum, acc.1))
    case Some(link) =>
      var sourced :- api.convertLinkToTrustAtom(link, TA.Forward, agent);
      var sourcedTrustAtoms := acc.1[ToB64String(sourced.sourceEntryHash) := ToB64String(sourced.targetEntryHash)];
      assert ToB64String(sourced.sourceEntryHash) in sourcedTrustAtoms;
      Ok((phiSum, sourcedTrustAtoms))
  }

  /** The sourced map of a round is empty exactly when it was empty before and the entry
      has no latest link. */
  lemma SourcedGrows(api: Api, latest: Option<Link>, agent: EntryHash, data: RollupData, acc: (real, map<string, string>))
    ensures var r := FirstPassEntry(api, latest, agent, data, acc);
      r.Ok? ==> (|r.value.1| > 0 <==> |acc.1| > 0 || latest.Some?)
  {
    var r := FirstPassEntry(api, latest, agent, data, acc);
    if r.Ok? && latest.Some? {
      var sourced := api.convertLinkToTrustAtom(latest.value, TA.Forward, agent).value;
      assert ToB64String(sourced.sourceEntryHash) in r.value.1;
    }
  }

  lemma {:induction false} FirstPassFails(api: Api, latestTo: EntryHash -> Option<Link>, m: Entries<RollupData>, k: nat)
    requires k <= |m| && FirstPass(api, latestTo, m[..k]).Err?
    ensures FirstPass(api, latestTo, m) == FirstPass(api, latestTo, m[..k])
    decreases |m| - k
  {
    if k < |m| {
      assert m[..k + 1][..k] == m[..k];
      FirstPassFails(api, latestTo, m, k + 1);
    } else {
      assert m[..k] == m;
    }
  }

  /** The second loop over an inner map: `rating^1.618 / phi_sum * value` for each rated
      entry. */
  function Contributions(api: Api, m: Entries<RollupData>, phiSum: real): (r: ExternResult<seq<F64>>)
    ensures r.Ok? ==> |r.value| == |PhiWeights(api, m)|
    ensures r.Ok? ==> forall i :: 0 <= i < |r.value| ==>
      r.value[i] == Mul(Div(Num(PhiWeights(api, m)[i]), Num(phiSum)), Num(RatedValues(api, m)[i]))
    ensures r.Err? ==> r.error == Panic(ParseError)
    decreases |m|
  {
    if |m| == 0 then Ok([])
    else
      var init := m[..|m| - 1];
      var data := m[|m| - 1].1;
      var acc :- Contributions(api, init, phiSum);
      match data.agentRating
      case None => Ok(acc)
      case Some(rating) =>
        match api.parseF64(rating)
        case None => Err(Panic(ParseError))
        case Some(parsed) =>
          match api.parseF64(data.value)
          case None => Err(Panic(ParseError))
          case Some(value) =>
            var weighted := Mul(Div(Num(api.powPhi(parsed)), Num(phiSum)), Num(value));
            Ok(acc + [weighted])
  }

  lemma {:induction false} ContributionsFail(api: Api, m: Entries<RollupData>, phiSum: real, k: nat)
    requires k <= |m| && Contributions(api, m[..k], phiSum).Err?
    ensures Contributions(api, m, phiSum) == Contributions(api, m[..k], phiSum)
    decreases |m| - k
  {
    if k < |m| {
      assert m[..k + 1][..k] == m[..k];
      ContributionsFail(api, m, phiSum, k + 1);
    } else {
      assert m[..k] == m;
    }
  }

  /** An entry with a rating whose rating or value does not parse aborts the second loop
      with the parse panic, whatever comes before or after it. */
  lemma {:induction false} ContributionsParseFailure(api: Api, m: Entries<RollupData>, phiSum: real, k: nat)
    requires k < |m| && m[k].1.agentRating.Some?
    requires api.parseF64(m[k].1.agentRating.value).None? || api.parseF64(m[k].1.value).None?
    ensures Contributions(api, m, phiSum) == Err(Panic(ParseError))
    decreases |m|
  {
    var init := m[..|m| - 1];
    if k < |m| - 1 {
      assert init[k] == m[k];
      ContributionsParseFailure(api, init, phiSum, k);
    }
  }

  /** The rollup value: with the calling agent's own rating `p` of the subject,
      `p + (weighted_sum - p) * 0.20`; without one, the weighted sum divided by the number
      of contributions (NaN when there are none). */
  function Blend(myRating: Option<real>, contributions: seq<F64>): (r: F64)
    ensures r.Num? <==> (forall i :: 0 <= i < |contributions| ==> contributions[i].Num?)
                        && (myRating.Some? || |contributions| > 0)
  {
    var weightedSum := SumF64(contributions);
    match myRating
    case Some(parsed) => Add(Num(parsed), Mul(Add(weightedSum, Num(-parsed)), Num(0.20)))
    case None => Div(weightedSum, Num(|contributions| as real))
  }

  /** With its own rating `p`, the calling agent's opinion keeps 80% of the weight and the
      network's weighted sum `s` takes the other 20%. */
  lemma BlendWithOwnRating(p: real, contributions: seq<F64>, s: real)
    requires SumF64(contributions) == Num(s)
    ensures Blend(Some(p), contributions) == Num(0.8 * p + 0.2 * s)
  {
  }

  /** Without its own rating, the value is the weighted sum over the number of contributions,
      and not a number when there are none. */
  lemma BlendWithoutOwnRating(contributions: seq<F64>, s: real)
    requires SumF64(contributions) == Num(s)
    ensures |contributions| == 0 ==> Blend(None, contributions) == NotFinite
    ensures |contributions| > 0 ==> Blend(None, contributions) == Num(s / |contributions| as real)
  {
  }

  /** With no contributions, the calling agent's own rating is pulled a fifth of the way
      towards 0. */
  lemma BlendNothing(p: real)
    ensures Blend(Some(p), []) == Num(0.8 * p)
  {
  }

  /** The worked figures: own rating 0.6 and weighted sum 0.9 give 0.66; no own rating and
      two contributions summing to 1.2 give 0.6; own rating 0.99 and a single contributor
      rating 0.80 give 0.952. */
  lemma BlendExamples()
    ensures Blend(Some(0.6), [Num(0.9)]) == Num(0.66)
    ensures Blend(None, [Num(0.5), Num(0.7)]) == Num(0.6)
    ensures Blend(Some(0.99), [Num(0.80)]) == Num(0.952)
  {
    assert [Num(0.5), Num(0.7)][..1] == [Num(0.5)];
  }

  /** Summing `w / phi_sum * v` over weights `ws` and values `vs` gives the weight-value
      products over `phi_sum`. */
  lemma {:induction false} WeightedSum(c: seq<F64>, ws: seq<real>, vs: seq<real>, phiSum: real)
    requires phiSum != 0.0 && |c| == |ws| == |vs|
    requires forall i :: 0 <= i < |c| ==> c[i] == Mul(Div(Num(ws[i]), Num(phiSum)), Num(vs[i]))
    ensures SumF64(c) == Num(Dot(ws, vs) / phiSum)
    decreases |c|
  {
    if |c| > 0 {
      var n := |c| - 1;
      forall i | 0 <= i < n
        ensures c[..n][i] == Mul(Div(Num(ws[..n][i]), Num(phiSum)), Num(vs[..n][i]))
      {
        assert c[..n][i] == c[i] && ws[..n][i] == ws[i] && vs[..n][i] == vs[i];
      }
      WeightedSum(c[..n], ws[..n], vs[..n], phiSum);
      assert SumF64(c) == Add(SumF64(c[..n]), c[n]);
      assert Dot(ws, vs) == Dot(ws[..n], vs[..n]) + ws[n] * vs[n];
      WeightedStep(Dot(ws[..n], vs[..n]), ws[n], vs[n], phiSum, SumF64(c[..n]), c[n]);
    }
  }

  /** The weighted sum of an inner map is the weight-value products over the sum of the
      weights. */
  lemma ContributionsSum(api: Api, m: Entries<RollupData>, phiSum: real)
    requires phiSum != 0.0 && Contributions(api, m, phiSum).Ok?
    ensures SumF64(Contributions(api, m, phiSum).value) == Num(Dot(PhiWeights(api, m), RatedValues(api, m)) / phiSum)
  {
    WeightedSum(Contributions(api, m, phiSum).value, PhiWeights(api, m), RatedValues(api, m), phiSum);
  }

  /** A weighted sum of one value repeated is that value times the sum of the weights. */
  lemma {:induction false} DotOfConstant(ws: seq<real>, vs: seq<real>, v: real)
    requires |ws| == |vs| && forall i :: 0 <= i < |vs| ==> vs[i] == v
    ensures Dot(ws, vs) == v * RealSum(ws)
    decreases |ws|
  {
    if |ws| > 0 {
      DotOfConstant(ws[..|ws| - 1], vs[..|vs| - 1], v);
    }
  }

  /** When every rated entry gives the subject the same value `v`, the rated values are all `v`. */
  lemma {:induction false} RatedValuesConstant(api: Api, m: Entries<RollupData>, v: real)
    requires forall e :: e in m && e.1.agentRating.Some? ==> api.parseF64(e.1.value) == Some(v)
    ensures forall i :: 0 <= i < |RatedValues(api, m)| ==> RatedValues(api, m)[i] == v
    decreases |m|
  {
    if |m| > 0 {
      var init := m[..|m| - 1];
      assert forall e :: e in init ==> e in m;
      RatedValuesConstant(api, init, v);
      assert m[|m| - 1] in m;
    }
  }

  /** The normalised weights `rating^1.618 / phi_sum` add up to one: when every agent with a
      weight gives the subject the same value, the weighted sum is that value. */
  lemma UnanimousWeightedSum(api: Api, m: Entries<RollupData>, v: real)
    requires RealSum(PhiWeights(api, m)) != 0.0
    requires Contributions(api, m, RealSum(PhiWeights(api, m))).Ok?
    requires forall e :: e in m && e.1.agentRating.Some? ==> api.parseF64(e.1.value) == Some(v)
    ensures SumF64(Contributions(api, m, RealSum(PhiWeights(api, m))).value) == Num(v)
  {
    var ws := PhiWeights(api, m);
    var vs := RatedValues(api, m);
    RatedValuesConstant(api, m, v);
    UnanimousSum(Contributions(api, m, RealSum(ws)).value, ws, vs, v);
  }

  lemma UnanimousSum(c: seq<F64>, ws: seq<real>, vs: seq<real>, v: real)
    requires RealSum(ws) != 0.0 && |c| == |ws| == |vs|
    requires forall i :: 0 <= i < |c| ==> c[i] == Mul(Div(Num(ws[i]), Num(RealSum(ws))), Num(vs[i]))
    requires forall i :: 0 <= i < |vs| ==> vs[i] == v
    ensures SumF64(c) == Num(v)
  {
    WeightedSum(c, ws, vs, RealSum(ws));
    DotOfConstant(ws, vs, v);
    Cancel(v, RealSum(ws), Dot(ws, vs));
  }

  lemma Cancel(a: real, b: real, d: real)
    requires b != 0.0 && d == a * b
    ensures d / b == a
  {
  }

  /** One more weighted value added to a running weighted sum. */
  lemma WeightedStep(d: real, w: real, v: real, phiSum: real, sum: F64, x: F64)
    requires phiSum != 0.0 && sum == Num(d / phiSum) && x == Mul(Div(Num(w), Num(phiSum)), Num(v))
    ensures Add(sum, x) == Num((d + w * v) / phiSum)
  {
    AddOverDivisor(d, w, v, phiSum);
  }

  lemma AddOverDivisor(d: real, w: real, v: real, c: real)
    requires c != 0.0
    ensures d / c + w / c * v == (d + w * v) / c
  {
    var q := w / c;
    assert q * c == w;
    assert (d + w * v) / c * c == d + w * v;
    assert (d / c + q * v) * c == d + w * v;
  }

  /** What `build_rollup_gold` passes to `create_trust_atom` for one subject. */
  datatype RollupArgs = RollupArgs(content: Option<string>, value: F64, extra: Option<string>)

  /** The `extra` of a rollup atom: the sourced map serialized and stored, when it is not
      empty. */
  function RollupExtra(api: Api, sourced: map<string, string>): (r: ExternResult<Option<string>>)
    ensures |sourced| == 0 ==> r == Ok(None)
    ensures r.Ok? && r.value.Some? ==>
      |sourced| > 0 && api.sourcedToJson(sourced).Some? && api.createExtra(api.sourcedToJson(sourced).value) == Ok(r.value.value)
  {
    var sourcedAtoms := if |sourced| > 0 then api.sourcedToJson(sourced) else None;
    match sourcedAtoms
    case None => Ok(None)
    case Some(atoms) =>
      var extraEntryHash :- api.createExtra(atoms);
      Ok(Some(extraEntryHash))
  }

  /** The content of a rollup atom: that of the calling agent's own latest atom about the
      subject, if any. */
  function RollupContent(api: Api, store: seq<Link>, me: EntryHash, target: EntryHash): (r: ExternResult<Option<string>>)
    ensures LatestLink(store, me, target, None).None? ==> r == Ok(None)
    ensures LatestLink(store, me, target, None).Some? ==>
      var atom := api.convertLinkToTrustAtom(LatestLink(store, me, target, None).value, TA.Forward, me);
      && (atom.Ok? ==> r == Ok(atom.value.content))
      && (atom.Err? ==> r == Err(atom.error))
  {
    match LatestLink(store, me, target, None)
    case None => Ok(None)
    case Some(link) =>
      var atom :- api.convertLinkToTrustAtom(link, TA.Forward, me);
      Ok(atom.content)
  }

  /** The body of the loop over the silver map, up to the call to `create_trust_atom`. */
  function GoldArgs(api: Api, store: seq<Link>, me: EntryHash, target: EntryHash, m: Entries<RollupData>): (r: ExternResult<RollupArgs>)
    ensures r.Ok? ==> RollupContent(api, store, me, target) == Ok(r.value.content)
    ensures r.Ok? ==> FirstPass(api, LatestTo(store, target, None), m).Ok?
                      && RollupExtra(api, FirstPass(api, LatestTo(store, target, None), m).value.1) == Ok(r.value.extra)
  {
    var first :- FirstPass(api, LatestTo(store, target, None), m);
    var contributions :- Contributions(api, m, first.0);
    var extra :- RollupExtra(api, first.1);
    var myRating :- GetRating(api, store, me, target, None);
    var content :- RollupContent(api, store, me, target);
    match myRating
    case Some(rating) =>
      (match api.parseF64(rating)
       case None => Err(Panic(ParseError))
       case Some(parsed) => Ok(RollupArgs(content, Blend(Some(parsed), contributions), extra)))
    case None => Ok(RollupArgs(content, Blend(None, contributions), extra))
  }

  /** When the calling agent rated the subject `p` and every agent in the inner map gave it
      the same value `v`, the rollup value is `0.8 * p + 0.2 * v`. */
  lemma GoldValueWithOwnRating(api: Api, store: seq<Link>, me: EntryHash, target: EntryHash, m: Entries<RollupData>,
                               rating: string, p: real, v: real)
    requires GoldArgs(api, store, me, target, m).Ok?
    requires GetRating(api, store, me, target, None) == Ok(Some(rating)) && api.parseF64(rating) == Some(p)
    requires RealSum(PhiWeights(api, m)) != 0.0
    requires forall e :: e in m && e.1.agentRating.Some? ==> api.parseF64(e.1.value) == Some(v)
    ensures GoldArgs(api, store, me, target, m).value.value == Num(0.8 * p + 0.2 * v)
  {
    GoldArgsBlend(api, store, me, target, m);
    var phiSum := RealSum(PhiWeights(api, m));
    assert FirstPass(api, LatestTo(store, target, None), m).value.0 == phiSum;
    var contributions := Contributions(api, m, phiSum);
    assert contributions.Ok?;
    UnanimousWeightedSum(api, m, v);
    BlendWithOwnRating(p, contributions.value, v);
  }

  /** A subject with no weighted entries, which the calling agent rated `p`: its own rating
      pulled a fifth of the way towards 0. */
  lemma GoldValueWithoutContributors(api: Api, store: seq<Link>, me: EntryHash, target: EntryHash, m: Entries<RollupData>,
                                     rating: string, p: real)
    requires GoldArgs(api, store, me, target, m).Ok? && |PhiWeights(api, m)| == 0
    requires GetRating(api, store, me, target, None) == Ok(Some(rating)) && api.parseF64(rating) == Some(p)
    ensures GoldArgs(api, store, me, target, m).value.value == Num(0.8 * p)
  {
    GoldArgsBlend(api, store, me, target, m);
    var phiSum := FirstPass(api, LatestTo(store, target, None), m).value.0;
    assert Contributions(api, m, phiSum).value == [];
    BlendNothing(p);
  }

  /** A subject with no weighted entries that the calling agent did not rate: not a number. */
  lemma GoldValueWithoutAnyRating(api: Api, store: seq<Link>, me: EntryHash, target: EntryHash, m: Entries<RollupData>)
    requires GoldArgs(api, store, me, target, m).Ok? && |PhiWeights(api, m)| == 0
    requires GetRating(api, store, me, target, None) == Ok(None)
    ensures GoldArgs(api, store, me, target, m).value.value == NotFinite
  {
    GoldArgsBlend(api, store, me, target, m);
    var phiSum := FirstPass(api, LatestTo(store, target, None), m).value.0;
    assert Contributions(api, m, phiSum).value == [];
    BlendWithoutOwnRating([], 0.0);
  }

  /** How the value of a rollup atom comes about: the blend of the calling agent's parsed
      rating, if any, with the contributions weighted by the sum from the first loop. */
  lemma GoldArgsBlend(api: Api, store: seq<Link>, me: EntryHash, target: EntryHash, m: Entries<RollupData>)
    requires GoldArgs(api, store, me, target, m).Ok?
    ensures FirstPass(api, LatestTo(store, target, None), m).Ok? && GetRating(api, store, me, target, None).Ok?
    ensures GoldArgs(api, store, me, target, m).value.extra.Some? ==>
              |FirstPass(api, LatestTo(store, target, None), m).value.1| > 0
    ensures var phiSum := FirstPass(api, LatestTo(store, target, None), m).value.0;
      var rating := GetRating(api, store, me, target, None).value;
      && Contributions(api, m, phiSum).Ok?
      && (rating.None? ==> GoldArgs(api, store, me, target, m).value.value == Blend(None, Contributions(api, m, phiSum).value))
      && (rating.Some? ==>
            && api.parseF64(rating.value).Some?
            && GoldArgs(api, store, me, target, m).value.value
                 == Blend(Some(api.parseF64(rating.value).value), Contributions(api, m, phiSum).value))
  {
    var first := FirstPass(api, LatestTo(store, target, None), m);
    assert first.Ok?;
    var phiSum := first.value.0;
    var contributions := Contributions(api, m, phiSum);
    var extra := RollupExtra(api, first.value.1);
    var myRating := GetRating(api, store, me, target, None);
    var content := RollupContent(api, store, me, target);
    assert contributions.Ok? && extra.Ok? && myRating.Ok? && content.Ok?;
    if myRating.value.None? {
      var blended := Blend(None, contributions.value);
      assert GoldArgs(api, store, me, target, m) == Ok(RollupArgs(content.value, blended, extra.value));
    }
  }

  /** The rollup atom of one subject. */
  function GoldAtom(api: Api, store: seq<Link>, me: EntryHash, target: EntryHash, m: Entries<RollupData>): (r: ExternResult<TrustAtom>)
    ensures GoldArgs(api, store, me, target, m).Err? ==> r == Err(GoldArgs(api, store, me, target, m).error)
    ensures GoldArgs(api, store, me, target, m).Ok? ==>
      var args := GoldArgs(api, store, me, target, m).value;
      r == api.createTrustAtom(me, target, Some(ROLLUP_PREFIX), args.content, Some(api.formatF64(args.value)), args.extra)
  {
    var args :- GoldArgs(api, store, me, target, m);
    api.createTrustAtom(me, target, Some(ROLLUP_PREFIX), args.content, Some(api.formatF64(args.value)), args.extra)
  }

  /** `build_rollup_gold(silver, me)`: the rollup atom of each silver key, in key order, or
      the first failure. */
  function Gold(api: Api, store: seq<Link>, me: EntryHash, silver: Entries<Entries<RollupData>>): (r: ExternResult<seq<TrustAtom>>)
    ensures r.Ok? ==> |r.value| == |silver|
                      && forall i :: 0 <= i < |silver| ==> GoldAtom(api, store, me, silver[i].0, silver[i].1) == Ok(r.value[i])
    ensures r.Err? ==> exists i :: 0 <= i < |silver| && GoldAtom(api, store, me, silver[i].0, silver[i].1) == Err(r.error)
                         && forall j :: 0 <= j < i ==> GoldAtom(api, store, me, silver[j].0, silver[j].1).Ok?
  {
    Collect(silver, (e: (EntryHash, Entries<RollupData>)) => GoldAtom(api, store, me, e.0, e.1))
  }

  /** The first loop over an inner map: `agent_rating_phi_sum` and `sourced_trust_atoms`. */
  method SumPhiAndSource(api: Api, store: seq<Link>, target: EntryHash, m: Entries<RollupData>)
    returns (r: ExternResult<(real, map<string, string>)>)
    ensures r == FirstPass(api, LatestTo(store, target, None), m)
  {
    ghost var latestTo := LatestTo(store, target, None);
    var sourcedTrustAtoms: map<string, string> := map[];
    var agentRatingPhiSum: real := 0.0;
    for k := 0 to |m|
      invariant FirstPass(api, latestTo, m[..k]) == Ok((agentRatingPhiSum, sourcedTrustAtoms))
    {
      assert m[..k + 1][..k] == m[..k];
      var linkLatest := GetLatest(store, m[k].0, target, None);
      assert linkLatest == latestTo(m[k].0);
      var next := AccumulateEntry(api, linkLatest, m[k].0, m[k].1, agentRatingPhiSum, sourcedTrustAtoms);
      if next.Err? {
        FirstPassFails(api, latestTo, m, k + 1);
        return next;
      }
      agentRatingPhiSum, sourcedTrustAtoms := next.value.0, next.value.1;
    }
    assert m[..|m|] == m;
    return Ok((agentRatingPhiSum, sourcedTrustAtoms));
  }

  /** The body of the first loop: add the entry's weight to the sum and record the
      latest link's decoded source and target. */
  method AccumulateEntry(api: Api, linkLatest: Option<Link>, agent: EntryHash, rollupData: RollupData,
                         agentRatingPhiSum: real, sourcedTrustAtoms: map<string, string>)
    returns (r: ExternResult<(real, map<string, string>)>)
    ensures r == FirstPassEntry(api, linkLatest, agent, rollupData, (agentRatingPhiSum, sourcedTrustAtoms))
  {
    var phiSum := agentRatingPhiSum;
    if rollupData.agentRating.Some? {
      var parsed := api.parseF64(rollupData.agentRating.value);
      if parsed.None? {
        return Err(Panic(ParseError));
      }
      phiSum := phiSum + api.powPhi(parsed.value);
    }
    if linkLatest.Some? {
      var sourcedAtomLatest := api.convertLinkToTrustAtom(linkLatest.value, TA.Forward, agent);
      if sourcedAtomLatest.Err? {
        return Err(sourcedAtomLatest.error);
      }
      var sourced := sourcedAtomLatest.value;
      return Ok((phiSum, sourcedTrustAtoms[ToB64String(sourced.sourceEntryHash) := ToB64String(sourced.targetEntryHash)]));
    }
    return Ok((phiSum, sourcedTrustAtoms));
  }

  /** The second loop over an inner map: the `accumulator` of weighted values. */
  method WeighValues(api: Api, m: Entries<RollupData>, agentRatingPhiSum: real) returns (r: ExternResult<seq<F64>>)
    ensures r == Contributions(api, m, agentRatingPhiSum)
  {
    var accumulator: seq<F64> := [];
    for k := 0 to |m|
      invariant Contributions(api, m[..k], agentRatingPhiSum) == Ok(accumulator)
    {
      assert m[..k + 1][..k] == m[..k];
      var rollupData := m[k].1;
      if rollupData.agentRating.Some? {
        var parsed := api.parseF64(rollupData.agentRating.value);
        var value := api.parseF64(rollupData.value);
        if parsed.None? || value.None? {
          ContributionsFail(api, m, agentRatingPhiSum, k + 1);
          return Err(Panic(ParseError));
        }
        var weighted := Mul(Div(Num(api.powPhi(parsed.value)), Num(agentRatingPhiSum)), Num(value.value));
        accumulator := accumulator + [weighted];
      }
    }
    assert m[..|m|] == m;
    return Ok(accumulator);
  }

  /** The body of the loop over the silver map: both loops over the inner map, then the
      blend and `create_trust_atom`. */
  method RollupAtomFor(api: Api, store: seq<Link>, me: EntryHash, target: EntryHash, m: Entries<RollupData>)
    returns (r: ExternResult<TrustAtom>)
    ensures r == GoldAtom(api, store, me, target, m)
  {
    var first :- SumPhiAndSource(api, store, target, m);
    var agentRatingPhiSum := first.0;
    var sourcedTrustAtoms := first.1;
    var accumulator :- WeighValues(api, m, agentRatingPhiSum);
    var extraEntryHash :- RollupExtra(api, sourcedTrustAtoms);
    var myRating :- GetRating(api, store, me, target, None);
    var content :- RollupContent(api, store, me, target);
    var algo: F64;
    if myRating.Some? {
      var parsed := api.parseF64(myRating.value);
      if parsed.None? {
        return Err(Panic(ParseError));
      }
      algo := Blend(Some(parsed.value), accumulator);
    } else {
      algo := Blend(None, accumulator);
    }
    r := api.createTrustAtom(me, target, Some(ROLLUP_PREFIX), content, Some(api.formatF64(algo)), extraEntryHash);
  }

  /** `build_rollup_gold(silver, me)`. */
  method BuildRollupGold(api: Api, store: seq<Link>, silver: Entries<Entries<RollupData>>, me: EntryHash)
    returns (r: ExternResult<seq<TrustAtom>>)
    ensures r == Gold(api, store, me, silver)
  {
    var atomFor := (e: (EntryHash, Entries<RollupData>)) => GoldAtom(api, store, me, e.0, e.1);
    var rollupGold: seq<TrustAtom> := [];
    for i := 0 to |silver|
      invariant Collect(silver[..i], atomFor) == Ok(rollupGold)
    {
      var target := silver[i].0;
      var m := silver[i].1;
      var rollupAtom := RollupAtomFor(api, store, me, target, m);
      if rollupAtom.Err? {
        CollectFailsAt(silver, i, atomFor);
        return Err(rollupAtom.error);
      }
      CollectSnoc(silver[..i], silver[i], atomFor);
      assert silver[..i + 1] == silver[..i] + [silver[i]];
      rollupGold := rollupGold + [rollupAtom.value];
    }
    assert silver[..|silver|] == silver;
    return Ok(rollupGold);
  }

  // ---------------------------------------------------------------------------------------
  // create_rollup_atoms

  /** `create_rollup_atoms()` run by the agent `me` over a snapshot of the store. */
  function RollupAtoms(api: Api, store: seq<Link>, me: EntryHash): (r: ExternResult<seq<TrustAtom>>)
    ensures api.queryMine(store).Err? ==> r == Err(api.queryMine(store).error)
    ensures api.queryMine(store).Ok? ==>
      var myAtoms := api.queryMine(store).value;
      var silver := Silver(api, store, me, myAtoms, AgentList(myAtoms));
      && (silver.Err? ==> r == Err(silver.error))
      && (silver.Ok? ==> r == Gold(api, store, me, silver.value))
  {
    var myAtoms :- api.queryMine(store);
    var silver :- Silver(api, store, me, myAtoms, AgentList(myAtoms));
    Gold(api, store, me, silver)
  }

  /** A successful rollup creates exactly one rollup atom per silver subject, in key order,
      each authored by the calling agent about that subject with prefix "rollup"; the
      subjects are the targets of the agent's own atoms not marked as agents that are not
      themselves rated agents, each once. */
  lemma RollupAtomsPerSubject(api: Api, store: seq<Link>, me: EntryHash)
    requires RollupAtoms(api, store, me).Ok?
    ensures api.queryMine(store).Ok?
    ensures var myAtoms := api.queryMine(store).value;
      var agents := AgentList(myAtoms);
      && Silver(api, store, me, myAtoms, agents).Ok?
      && var silver := Silver(api, store, me, myAtoms, agents).value;
         var atoms := RollupAtoms(api, store, me).value;
         && Ordered(silver)
         && (forall h :: h in Keys(silver) <==>
               (exists a :: a in myAtoms && a.prefix != Some(AGENT_PREFIX) && a.targetEntryHash == h) && h !in agents)
         && |atoms| == |silver|
         && forall i :: 0 <= i < |atoms| ==>
              && GoldArgs(api, store, me, silver[i].0, silver[i].1).Ok?
              && var args := GoldArgs(api, store, me, silver[i].0, silver[i].1).value;
                 api.createTrustAtom(me, silver[i].0, Some(ROLLUP_PREFIX), args.content, Some(api.formatF64(args.value)), args.extra)
                   == Ok(atoms[i])
  {
    var myAtoms := api.queryMine(store).value;
    var agents := AgentList(myAtoms);
    var silver := Silver(api, store, me, myAtoms, agents).value;
    var atoms := RollupAtoms(api, store, me).value;
    var atomFor := (e: (EntryHash, Entries<RollupData>)) => GoldAtom(api, store, me, e.0, e.1);
    assert Collect(silver, atomFor) == Ok(atoms);
    forall i | 0 <= i < |atoms|
      ensures GoldArgs(api, store, me, silver[i].0, silver[i].1).Ok?
      ensures var args := GoldArgs(api, store, me, silver[i].0, silver[i].1).value;
        api.createTrustAtom(me, silver[i].0, Some(ROLLUP_PREFIX), args.content, Some(api.formatF64(args.value)), args.extra)
          == Ok(atoms[i])
    {
      assert atomFor(silver[i]) == Ok(atoms[i]);
      assert GoldAtom(api, store, me, silver[i].0, silver[i].1) == Ok(atoms[i]);
    }
  }

  method CreateRollupAtoms(api: Api, store: seq<Link>, me: EntryHash) returns (r: ExternResult<seq<TrustAtom>>)
    ensures r == RollupAtoms(api, store, me)
  {
    var myAtoms :- api.queryMine(store);
    var agents := BuildAgentList(myAtoms);
    var rollupSilver :- BuildRollupSilver(api, store, me, myAtoms, agents);
    r := BuildRollupGold(api, store, rollupSilver, me);
  }
}
