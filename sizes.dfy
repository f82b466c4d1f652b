/** The drink sizes (js/sizes.js): a name, a surcharge added to the base price,
 *  and an on/off switch. */
module Sizes {
  import opened Common

  datatype Size = Size(id: string, name: string, priceAdd: int, active: bool)

  /** The fields `updateSize` may overwrite; None leaves a field as it is. */
  datatype SizePatch = SizePatch(name: Option<string>, priceAdd: Option<int>, active: Option<bool>)

  datatype SizeError = NameRequired | SizeNotFound

  predicate IdsUnique(ss: seq<Size>)
  {
    forall i, j :: 0 <= i < j < |ss| ==> ss[i].id != ss[j].id
  }

  predicate IsActive(s: Size)
  {
    s.active
  }

  /** The first index holding that id, or -1 (`findIndex` / `find`). */
  function SizeIndex(ss: seq<Size>, id: string): (r: int)
    ensures -1 <= r < |ss|
    ensures r == -1 <==> forall j :: 0 <= j < |ss| ==> ss[j].id != id
    ensures 0 <= r ==> ss[r].id == id && forall j :: 0 <= j < r ==> ss[j].id != id
  {
    FirstIndex(ss, (s: Size) => s.id == id)
  }

  /** getActiveSizes: exactly the active sizes, in stored order. */
  function GetActiveSizes(ss: seq<Size>): (r: seq<Size>)
    ensures forall s :: s in r <==> s in ss && s.active
    ensures |r| == |ss| <==> forall j :: 0 <= j < |ss| ==> ss[j].active
  {
    Filter(ss, IsActive)
  }

  /** getSizeById: the first size with that id, None for `null`. */
  function GetSizeById(ss: seq<Size>, id: string): (r: Option<Size>)
    ensures r.None? <==> forall j :: 0 <= j < |ss| ==> ss[j].id != id
    ensures r.Some? ==> r.value in ss && r.value.id == id
  {
    var i := SizeIndex(ss, id);
    if i < 0 then None else Some(ss[i])
  }

  /** `{ ...size, ...data }`. */
  function Merge(s: Size, p: SizePatch): (m: Size)
    ensures m.id == s.id
  {
    Size(s.id, p.name.GetOr(s.name), p.priceAdd.GetOr(s.priceAdd), p.active.GetOr(s.active))
  }

  /** Applying the same patch twice changes nothing more; an empty patch
   *  changes nothing. */
  lemma MergeIdempotent(s: Size, p: SizePatch)
    ensures Merge(Merge(s, p), p) == Merge(s, p)
    ensures Merge(s, SizePatch(None, None, None)) == s
  {
  }

  /** toggleSize on the list `ss`: the new `active`, or not found. */
  function FlipActive(ss: seq<Size>, id: string): (o: (Result<bool, SizeError>, seq<Size>))
    ensures SizeIndex(ss, id) < 0 <==> o.0 == Err(SizeNotFound)
    ensures o.0.Err? ==> o.1 == ss
    ensures o.0.Ok? ==>
              var i := SizeIndex(ss, id);
              o.0.value == !ss[i].active && o.1 == ss[i := ss[i].(active := o.0.value)]
  {
    var i := SizeIndex(ss, id);
    if i < 0 then (Err(SizeNotFound), ss)
    else (Ok(!ss[i].active), ss[i := ss[i].(active := !ss[i].active)])
  }

  /** Toggling twice restores the list. */
  lemma FlipActiveTwice(ss: seq<Size>, id: string)
    ensures FlipActive(FlipActive(ss, id).1, id).1 == ss
  {
    var t := FlipActive(ss, id).1;
    assert forall j :: 0 <= j < |ss| ==> t[j].id == ss[j].id;
    assert SizeIndex(t, id) == SizeIndex(ss, id);
  }

  /** With unique ids, a toggled size is offered afterwards exactly when the
   *  toggle reports it switched on, and every other size keeps its place
   *  among the offered ones. */
  lemma FlipActiveOffers(ss: seq<Size>, id: string)
    requires IdsUnique(ss)
    requires FlipActive(ss, id).0.Ok?
    ensures var o := FlipActive(ss, id);
            var i := SizeIndex(ss, id);
            (o.1[i] in GetActiveSizes(o.1) <==> o.0.value) &&
            forall s: Size :: s.id != id ==> (s in GetActiveSizes(o.1) <==> s in GetActiveSizes(ss))
  {
    var o := FlipActive(ss, id);
    var i := SizeIndex(ss, id);
    forall s: Size | s.id != id
      ensures s in o.1 <==> s in ss
    {
      if s in ss {
        var j :| 0 <= j < |ss| && ss[j] == s;
        assert o.1[j] == s;
      }
      if s in o.1 {
        var j :| 0 <= j < |o.1| && o.1[j] == s;
        assert ss[j] == s;
      }
    }
  }

  /** `sizes.filter(s => s.id !== id)`. */
  function WithoutSize(ss: seq<Size>, id: string): (r: seq<Size>)
    ensures forall s :: s in r <==> s in ss && s.id != id
    ensures |r| == |ss| <==> forall j :: 0 <= j < |ss| ==> ss[j].id != id
  {
    Filter(ss, (s: Size) => s.id != id)
  }

  class SizeMenu {
    var sizes: seq<Size>

    constructor (seed: seq<Size>)
      ensures sizes == seed
    {
      sizes := seed;
    }

    /** addSize: only the empty name is refused; the new size is active, its
     *  surcharge the parsed integer or 0, and it is appended. `priceAdd` is the
     *  parsed integer, None when it is not a number; `newId` comes from the
     *  clock. */
    method AddSize(name: string, priceAdd: Option<int>, newId: string) returns (r: Result<Size, SizeError>)
      requires forall j :: 0 <= j < |sizes| ==> sizes[j].id != newId
      modifies this
      ensures r.Err? <==> name == ""
      ensures r.Err? ==> r.error == NameRequired && sizes == old(sizes)
      ensures r.Ok? ==>
              r.value == Size(newId, Trim(name), priceAdd.GetOr(0), true) &&
              sizes == old(sizes) + [r.value]
      ensures IdsUnique(old(sizes)) ==> IdsUnique(sizes)
    {
      if name == "" {
        return Err(NameRequired);
      }
      var s := Size(newId, Trim(name), priceAdd.GetOr(0), true);
      sizes := sizes + [s];
      r := Ok(s);
    }

    /** updateSize: an unknown id is refused; otherwise the first size with
     *  that id is merged with the patch and nothing else changes. */
    method UpdateSize(id: string, patch: SizePatch) returns (r: Result<Size, SizeError>)
      modifies this
      ensures r.Err? <==> SizeIndex(old(sizes), id) < 0
      ensures r.Err? ==> r.error == SizeNotFound && sizes == old(sizes)
      ensures r.Ok? ==>
              var i := SizeIndex(old(sizes), id);
              r.value == Merge(old(sizes)[i], patch) && sizes == old(sizes)[i := r.value]
      ensures IdsUnique(old(sizes)) ==> IdsUnique(sizes)
    {
      var i := SizeIndex(sizes, id);
      if i < 0 {
        return Err(SizeNotFound);
      }
      var s := Merge(sizes[i], patch);
      sizes := sizes[i := s];
      r := Ok(s);
    }

    /** toggleSize: flips `active` of the first size with that id only. */
    method ToggleSize(id: string) returns (r: Result<bool, SizeError>)
      modifies this
      ensures (r, sizes) == FlipActive(old(sizes), id)
    {
      var i := SizeIndex(sizes, id);
      if i < 0 {
        return Err(SizeNotFound);
      }
      var active := !sizes[i].active;
      sizes := sizes[i := sizes[i].(active := active)];
      r := Ok(active);
    }

    /** deleteSize: every size with that id is removed; the call reports not
     *  found exactly when the list did not get shorter. */
    method DeleteSize(id: string) returns (r: Result<(), SizeError>)
      modifies this
      ensures r.Err? <==> forall j :: 0 <= j < |old(sizes)| ==> old(sizes)[j].id != id
      ensures r.Err? ==> r.error == SizeNotFound && sizes == old(sizes)
      ensures r.Ok? ==> sizes == WithoutSize(old(sizes), id)
      ensures forall s :: s in sizes ==> s.id != id
    {
      var remaining := WithoutSize(sizes, id);
      if |remaining| == |sizes| {
        return Err(SizeNotFound);
      }
      sizes := remaining;
      r := Ok(());
    }
  }
}
