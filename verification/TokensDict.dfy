/** The token dictionary of the fault manager and the consumer that feeds it.
 *
 * Only `new_token_ids` and `finished` are modelled; every other field of a message (`log_probs`,
 * `routed_experts`, `num_preempted`) is an `Extras` update, which may create an entry but never
 * touches its tokens or its flag.
 */
module TokensDict {
  import opened Decoding

  type Rid = nat  // request id, a fresh uuid in the source
  type Gid = nat  // global id of a prompt copy within one training step

  datatype Info = Delta(tokens: seq<Token>, finished: bool) | Extras
  datatype Message = Mapping(rid: Rid, gid: Gid) | Update(infos: seq<(Rid, Info)>)
  datatype Entry = Entry(tokens: seq<Token>, finished: bool)
  type Dict = map<Gid, Entry>

  /** `.get(global_id, {...})` with the source's defaults. */
  function Lookup(dict: Dict, gid: Gid): Entry {
    if gid in dict then dict[gid] else Entry([], false)
  }

  function Absorb(entry: Entry, info: Info): Entry {
    match info
    case Delta(tokens, finished) => Entry(entry.tokens + tokens, finished)
    case Extras => entry
  }

  function ApplyInfo(ids: map<Rid, Gid>, dict: Dict, update: (Rid, Info)): Dict {
    if update.0 in ids then
      var gid := ids[update.0];
      dict[gid := Absorb(Lookup(dict, gid), update.1)]
    else dict
  }

  /** The effect of one message dictionary, entry by entry. */
  function ApplyInfos(ids: map<Rid, Gid>, dict: Dict, infos: seq<(Rid, Info)>): Dict {
    if infos == [] then dict
    else ApplyInfo(ids, ApplyInfos(ids, dict, infos[..|infos| - 1]), infos[|infos| - 1])
  }

  /** What a message carries for `gid` when requests belong to ids as `owner` says. */
  function TokensFor(owner: map<Rid, Gid>, infos: seq<(Rid, Info)>, gid: Gid): seq<Token> {
    if infos == [] then []
    else
      var (rid, info) := infos[|infos| - 1];
      TokensFor(owner, infos[..|infos| - 1], gid) +
      if rid in owner && owner[rid] == gid && info.Delta? then info.tokens else []
  }

  /** The flag of `gid` after a message, given the flag before it: the last one sent wins. */
  function FlagAfter(owner: map<Rid, Gid>, infos: seq<(Rid, Info)>, gid: Gid, before: bool): bool {
    if infos == [] then before
    else
      var (rid, info) := infos[|infos| - 1];
      if rid in owner && owner[rid] == gid && info.Delta? then info.finished
      else FlagAfter(owner, infos[..|infos| - 1], gid, before)
  }

  /** `ids`, the consumer's map, knows every owned request in the message and no other token-carrying one. */
  ghost predicate Resolves(ids: map<Rid, Gid>, owner: map<Rid, Gid>, infos: seq<(Rid, Info)>) {
    forall i :: 0 <= i < |infos| ==>
      var (rid, info) := infos[i];
      if rid in owner then rid in ids && ids[rid] == owner[rid]
      else info.Delta? ==> rid !in ids
  }

  /** Folding a message appends exactly the tokens it carries for each id, and drops none of them. */
  lemma {:induction false} FoldAppends(ids: map<Rid, Gid>, owner: map<Rid, Gid>, dict: Dict, infos: seq<(Rid, Info)>, gid: Gid)
    requires Resolves(ids, owner, infos)
    ensures Lookup(ApplyInfos(ids, dict, infos), gid) ==
            Entry(Lookup(dict, gid).tokens + TokensFor(owner, infos, gid),
                  FlagAfter(owner, infos, gid, Lookup(dict, gid).finished))
  {
    if infos == [] {
      assert Lookup(dict, gid).tokens + [] == Lookup(dict, gid).tokens;
    } else {
      var init, last := infos[..|infos| - 1], infos[|infos| - 1];
      assert Resolves(ids, owner, init) by {
        forall i | 0 <= i < |init| ensures init[i] == infos[i] {}
      }
      FoldAppends(ids, owner, dict, init, gid);
      var mid := Lookup(ApplyInfos(ids, dict, init), gid);
      if last.0 in ids && ids[last.0] == gid && last.1.Delta? {
        assert Lookup(dict, gid).tokens + TokensFor(owner, infos, gid) ==
               Lookup(dict, gid).tokens + TokensFor(owner, init, gid) + last.1.tokens;
      } else {
        assert TokensFor(owner, infos, gid) == TokensFor(owner, init, gid);
        assert Lookup(ApplyInfos(ids, dict, infos), gid) == mid;
      }
    }
  }

  /** Some request of the message belongs to the id. */
  ghost predicate IsMentioned(ids: map<Rid, Gid>, infos: seq<(Rid, Info)>, gid: Gid) {
    exists i :: 0 <= i < |infos| && infos[i].0 in ids && ids[infos[i].0] == gid
  }

  /** Exactly the ids of known requests get an entry, whatever the update carries. */
  lemma {:induction false} FoldCreates(ids: map<Rid, Gid>, dict: Dict, infos: seq<(Rid, Info)>)
    ensures forall gid :: gid in ApplyInfos(ids, dict, infos) <==> gid in dict || IsMentioned(ids, infos, gid)
  {
    if infos != [] {
      var init, last := infos[..|infos| - 1], infos[|infos| - 1];
      FoldCreates(ids, dict, init);
      forall gid ensures IsMentioned(ids, infos, gid) <==> IsMentioned(ids, init, gid) || (last.0 in ids && ids[last.0] == gid) {
        assert infos == init + [last];
      }
    }
  }

  /** The consumer's pair of dictionaries after one message. */
  datatype Store = Store(ids: map<Rid, Gid>, dict: Dict)

  function Apply(store: Store, message: Message): Store {
    match message
    case Mapping(rid, gid) => store.(ids := store.ids[rid := gid])
    case Update(infos) => store.(dict := ApplyInfos(store.ids, store.dict, infos))
  }

  function ApplyAll(store: Store, messages: seq<Message>): Store
    decreases |messages|
  {
    if messages == [] then store
    else ApplyAll(Apply(store, messages[0]), messages[1..])
  }

  /** The actor that holds the tokens, with the consumer's request map beside it. */
  class Collector {
    var index_prompt_tokens: Dict
    var request_global_id_map: map<Rid, Gid>

    ghost function Contents(): Store
      reads this
    {
      Store(request_global_id_map, index_prompt_tokens)
    }

    constructor ()
      ensures Contents() == Store(map[], map[])
    {
      index_prompt_tokens, request_global_id_map := map[], map[];
    }

    method UpdateDatas(infos: seq<(Rid, Info)>)
      modifies this`index_prompt_tokens
      ensures index_prompt_tokens == ApplyInfos(request_global_id_map, old(index_prompt_tokens), infos)
      ensures forall gid :: gid in index_prompt_tokens <==>
                            gid in old(index_prompt_tokens) || IsMentioned(request_global_id_map, infos, gid)
    {
      FoldCreates(request_global_id_map, index_prompt_tokens, infos);
      for i := 0 to |infos|
        invariant index_prompt_tokens == ApplyInfos(request_global_id_map, old(index_prompt_tokens), infos[..i])
      {
        assert infos[..i + 1][..i] == infos[..i];
        var (rid, info) := infos[i];
        if rid in request_global_id_map {
          var gid := request_global_id_map[rid];
          if gid !in index_prompt_tokens {
            index_prompt_tokens := index_prompt_tokens[gid := Entry([], false)];
          }
          var entry := index_prompt_tokens[gid];
          match info {
            case Delta(tokens, finished) =>
              index_prompt_tokens := index_prompt_tokens[gid := Entry(entry.tokens + tokens, finished)];
            case Extras =>
          }
        }
      }
      assert infos[..|infos|] == infos;
    }

    /** The consumer loop over the messages of the queue, oldest first. */
    method Consume(queue: seq<Message>)
      modifies this
      ensures Contents() == ApplyAll(old(Contents()), queue)
    {
      for i := 0 to |queue|
        invariant ApplyAll(Contents(), queue[i..]) == ApplyAll(old(Contents()), queue)
      {
        match queue[i] {
          case Mapping(rid, gid) => request_global_id_map := request_global_id_map[rid := gid];
          case Update(infos) => UpdateDatas(infos);
        }
      }
    }
  }
}
