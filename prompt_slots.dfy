/** The client's prompt list. A create reply without a `prompt` key appends
    `undefined` to it, so an entry is an optional prompt; `find` and `map` over
    the list read `.id` of every entry they visit and throw on an `undefined`
    one. */
module PromptSlots {
  import opened Wrappers
  import opened PromptTypes

  /** One list entry: a prompt, or `undefined`. */
  type Slot = Option<Prompt>

  /** The outcome of `prompts.find(p => p.id === id)`. */
  datatype Lookup = Found(index: nat) | NotFound | LookupThrew

  /** `find` stops at the first entry whose id matches, and throws at the first
      `undefined` entry it reaches before that. */
  function FindById(slots: seq<Slot>, id: string): (r: Lookup)
    ensures r.Found? ==>
      && r.index < |slots| && slots[r.index].Some? && slots[r.index].value.id == id
      && forall k :: 0 <= k < r.index ==> slots[k].Some? && slots[k].value.id != id
    ensures r.NotFound? <==> forall k :: 0 <= k < |slots| ==> slots[k].Some? && slots[k].value.id != id
    ensures r.LookupThrew? ==> exists k ::
      && 0 <= k < |slots| && slots[k].None?
      && forall j :: 0 <= j < k ==> slots[j].Some? && slots[j].value.id != id
  {
    if slots == [] then NotFound
    else if slots[0].None? then LookupThrew
    else if slots[0].value.id == id then Found(0)
    else
      var r := FindById(slots[1..], id);
      assert forall k :: 1 <= k < |slots| ==> slots[k] == slots[1..][k - 1];
      match r
      case Found(i) => Found(i + 1)
      case NotFound => NotFound
      case LookupThrew =>
        assert exists k ::
          && 1 <= k < |slots| && slots[k].None?
          && forall j :: 0 <= j < k ==> slots[j].Some? && slots[j].value.id != id
        by {
          var k :| && 0 <= k < |slots[1..]| && slots[1..][k].None?
            && forall j :: 0 <= j < k ==> slots[1..][j].Some? && slots[1..][j].value.id != id;
          assert slots[k + 1].None?;
          forall j | 0 <= j < k + 1 ensures slots[j].Some? && slots[j].value.id != id {
            if j > 0 { assert slots[j] == slots[1..][j - 1]; }
          }
        }
        LookupThrew
  }

  /** The entry that `find` returns, when it returns one. */
  function FoundPrompt(slots: seq<Slot>, id: string): (r: Option<Prompt>)
    ensures r.Some? <==> FindById(slots, id).Found?
    ensures r.Some? ==> r.value.id == id && Some(r.value) in slots
  {
    match FindById(slots, id)
    case Found(i) => slots[i]
    case _ => None
  }

  /** Every entry is a prompt. */
  predicate Defined(slots: seq<Slot>) {
    forall k :: 0 <= k < |slots| ==> slots[k].Some?
  }

  /** The prompts a list reply carries, as entries. */
  function AsSlots(ps: seq<Prompt>): (r: seq<Slot>)
    ensures |r| == |ps| && Defined(r)
    ensures forall i :: 0 <= i < |ps| ==> r[i] == Some(ps[i])
  {
    seq(|ps|, i requires 0 <= i < |ps| => Some(ps[i]))
  }

  /** `prompts.map(p => p.id === id ? replacement : p)`: `None` when an entry is
      `undefined` (the callback throws on it); otherwise the entries with that id
      become the replacement and all others stay as they are. */
  function MapById(slots: seq<Slot>, id: string, replacement: Slot): (r: Option<seq<Slot>>)
    ensures r.Some? <==> Defined(slots)
    ensures r.Some? ==> |r.value| == |slots|
    ensures r.Some? ==> forall k :: 0 <= k < |slots| ==>
      r.value[k] == (if slots[k].value.id == id then replacement else slots[k])
  {
    if Defined(slots) then
      Some(seq(|slots|, k requires 0 <= k < |slots| =>
        if slots[k].value.id == id then replacement else slots[k]))
    else
      None
  }

  /** Mapping the same id to the same replacement twice is mapping it once,
      provided the replacement keeps the id. */
  lemma MapByIdIdempotent(slots: seq<Slot>, id: string, p: Prompt)
    requires Defined(slots) && p.id == id
    ensures MapById(slots, id, Some(p)).Some?
    ensures MapById(MapById(slots, id, Some(p)).value, id, Some(p)) == MapById(slots, id, Some(p))
  {
    var once := MapById(slots, id, Some(p)).value;
    assert Defined(once);
    var twice := MapById(once, id, Some(p)).value;
    assert twice == once by {
      forall k | 0 <= k < |once| ensures twice[k] == once[k] {
      }
    }
  }

  /** Rollback: writing an optimistic version of a prompt (same id) and then
      writing the original back restores the list, as long as every entry with
      that id was the original. */
  lemma RollbackRestores(slots: seq<Slot>, original: Prompt, optimistic: Prompt)
    requires Defined(slots) && optimistic.id == original.id
    requires forall k :: 0 <= k < |slots| && slots[k].value.id == original.id ==> slots[k] == Some(original)
    ensures MapById(slots, original.id, Some(optimistic)).Some?
    ensures MapById(MapById(slots, original.id, Some(optimistic)).value, original.id, Some(original))
      == Some(slots)
  {
    var mid := MapById(slots, original.id, Some(optimistic)).value;
    var back := MapById(mid, original.id, Some(original)).value;
    assert back == slots by {
      forall k | 0 <= k < |slots| ensures back[k] == slots[k] {
      }
    }
  }
}
