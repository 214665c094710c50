/**
 * add_save_button: a frame's packed children, from which every child flagged as a
 * save button is destroyed before one new flagged button is packed last.
 */
module SaveButton {

  /** A packed child widget: its identity and whether it carries the save-button flag. */
  datatype Widget = Widget(id: nat, isSave: bool)

  /**
   * The children that are not save buttons, in their original order: the reference
   * result of the removal loop in AddSaveButton. Each child is kept or dropped in
   * place, so the survivors keep their relative order.
   */
  function NonSave(ws: seq<Widget>): (r: seq<Widget>)
    ensures |r| <= |ws|
    ensures forall w :: w in r <==> w in ws && !w.isSave
  {
    if ws == [] then []
    else (if ws[0].isSave then [] else [ws[0]]) + NonSave(ws[1..])
  }

  /** How many of the children are save buttons. */
  function SaveCount(ws: seq<Widget>): (n: nat)
    ensures n <= |ws|
  {
    if ws == [] then 0 else (if ws[0].isSave then 1 else 0) + SaveCount(ws[1..])
  }

  /** The children left after destroying the widget with the given identity. */
  function Without(ws: seq<Widget>, id: nat): (r: seq<Widget>)
  {
    if ws == [] then []
    else (if ws[0].id == id then [] else [ws[0]]) + Without(ws[1..], id)
  }

  predicate DistinctIds(ws: seq<Widget>)
  {
    forall i, j :: 0 <= i < j < |ws| ==> ws[i].id != ws[j].id
  }

  lemma {:induction false} NonSaveConcat(a: seq<Widget>, b: seq<Widget>)
    ensures NonSave(a + b) == NonSave(a) + NonSave(b)
  {
    if a == [] {
      assert a + b == b;
    } else {
      assert (a + b)[0] == a[0] && (a + b)[1..] == a[1..] + b;
      NonSaveConcat(a[1..], b);
    }
  }

  lemma {:induction false} SaveCountConcat(a: seq<Widget>, b: seq<Widget>)
    ensures SaveCount(a + b) == SaveCount(a) + SaveCount(b)
  {
    if a == [] {
      assert a + b == b;
    } else {
      assert (a + b)[0] == a[0] && (a + b)[1..] == a[1..] + b;
      SaveCountConcat(a[1..], b);
    }
  }

  /** Once the save buttons are gone, none are left. */
  lemma {:induction false} NonSaveHasNoSave(ws: seq<Widget>)
    ensures SaveCount(NonSave(ws)) == 0
  {
    if ws != [] {
      NonSaveHasNoSave(ws[1..]);
      if ws[0].isSave {
        assert NonSave(ws) == [] + NonSave(ws[1..]) == NonSave(ws[1..]);
      } else {
        assert NonSave(ws) == [ws[0]] + NonSave(ws[1..]);
        SaveCountConcat([ws[0]], NonSave(ws[1..]));
      }
    }
  }

  lemma {:induction false} WithoutAbsent(ws: seq<Widget>, id: nat)
    requires forall i :: 0 <= i < |ws| ==> ws[i].id != id
    ensures Without(ws, id) == ws
  {
    if ws != [] {
      WithoutAbsent(ws[1..], id);
    }
  }

  lemma {:induction false} WithoutConcat(a: seq<Widget>, b: seq<Widget>, id: nat)
    ensures Without(a + b, id) == Without(a, id) + Without(b, id)
  {
    if a == [] {
      assert a + b == b;
    } else {
      assert (a + b)[0] == a[0] && (a + b)[1..] == a[1..] + b;
      WithoutConcat(a[1..], b, id);
    }
  }

  /** With distinct identities, no child before or after position k shares the identity of the child at k. */
  lemma {:induction false} OthersDiffer(ws: seq<Widget>, k: nat, pre: seq<Widget>, post: seq<Widget>)
    requires k < |ws| && DistinctIds(ws)
    requires pre == ws[..k] && post == ws[k + 1..]
    ensures forall i :: 0 <= i < |pre| ==> pre[i].id != ws[k].id
    ensures forall i :: 0 <= i < |post| ==> post[i].id != ws[k].id
  {
    forall i | 0 <= i < |pre| ensures pre[i].id != ws[k].id {
      assert pre[i] == ws[i];
    }
    forall i | 0 <= i < |post| ensures post[i].id != ws[k].id {
      assert post[i] == ws[k + 1 + i];
    }
  }

  /** Destroying x removes x alone when no other child carries its identity. */
  lemma {:induction false} WithoutMiddle(pre: seq<Widget>, x: Widget, post: seq<Widget>)
    requires forall i :: 0 <= i < |pre| ==> pre[i].id != x.id
    requires forall i :: 0 <= i < |post| ==> post[i].id != x.id
    ensures Without(pre + [x] + post, x.id) == pre + post
  {
    WithoutAbsent(pre, x.id);
    WithoutAbsent(post, x.id);
    assert Without([x], x.id) == [];
    WithoutConcat(pre + [x], post, x.id);
    WithoutConcat(pre, [x], x.id);
  }

  /** With distinct identities, destroying the child at position k removes that child and nothing else. */
  lemma {:induction false} WithoutAt(ws: seq<Widget>, k: nat)
    requires k < |ws| && DistinctIds(ws)
    ensures Without(ws, ws[k].id) == ws[..k] + ws[k + 1..]
  {
    var pre, post := ws[..k], ws[k + 1..];
    OthersDiffer(ws, k, pre, post);
    WithoutMiddle(pre, ws[k], post);
    assert ws == pre + [ws[k]] + post;
  }

  /**
   * One step of the walk over the copied packing list: the children are the
   * non-save part of the copy's first i entries followed by its remaining entries;
   * handling entry i (destroying it when flagged) advances this to i + 1.
   */
  lemma {:induction false} WalkStep(snapshot: seq<Widget>, i: nat, slaves: seq<Widget>)
    requires i < |snapshot| && DistinctIds(slaves)
    requires slaves == NonSave(snapshot[..i]) + snapshot[i..]
    ensures snapshot[i].isSave ==>
      && slaves[|NonSave(snapshot[..i])|] == snapshot[i]
      && Without(slaves, snapshot[i].id) == NonSave(snapshot[..i + 1]) + snapshot[i + 1..]
    ensures !snapshot[i].isSave ==> slaves == NonSave(snapshot[..i + 1]) + snapshot[i + 1..]
  {
    var done := NonSave(snapshot[..i]);
    assert snapshot[..i + 1] == snapshot[..i] + [snapshot[i]];
    NonSaveConcat(snapshot[..i], [snapshot[i]]);
    assert snapshot[i..] == [snapshot[i]] + snapshot[i + 1..];
    if snapshot[i].isSave {
      assert NonSave([snapshot[i]]) == [];
      assert slaves[|done|] == snapshot[i];
      WithoutAt(slaves, |done|);
      assert slaves[..|done|] == done;
      assert slaves[|done| + 1..] == snapshot[i + 1..];
    } else {
      assert NonSave([snapshot[i]]) == [snapshot[i]];
    }
  }

  /** A container frame: its packed children in packing order, and the next fresh widget identity. */
  class Frame {
    var slaves: seq<Widget>
    var nextId: nat

    ghost predicate Valid()
      reads this
    {
      && DistinctIds(slaves)
      && forall i :: 0 <= i < |slaves| ==> slaves[i].id < nextId
    }

    constructor ()
      ensures Valid() && slaves == []
    {
      slaves := [];
      nextId := 0;
    }

    /** Create a new widget and pack it after the existing children. */
    method Pack(isSave: bool) returns (w: Widget)
      requires Valid()
      modifies this
      ensures Valid()
      ensures w == Widget(old(nextId), isSave)
      ensures slaves == old(slaves) + [w] && nextId == old(nextId) + 1
    {
      w := Widget(nextId, isSave);
      slaves := slaves + [w];
      nextId := nextId + 1;
    }

    /** Destroy a widget: it leaves the packing list; the other children keep their order. */
    method Destroy(w: Widget)
      requires Valid()
      modifies this
      ensures Valid() && nextId == old(nextId)
      ensures slaves == Without(old(slaves), w.id)
    {
      var k := 0;
      while k < |slaves| && slaves[k].id != w.id
        invariant 0 <= k <= |slaves|
        invariant forall i :: 0 <= i < k ==> slaves[i].id != w.id
      {
        k := k + 1;
      }
      if k == |slaves| {
        WithoutAbsent(slaves, w.id);
      } else {
        WithoutAt(slaves, k);
        slaves := slaves[..k] + slaves[k + 1..];
      }
    }

    /**
     * Destroy every child flagged as a save button (walking a copy of the packing
     * list taken up front), then pack one new save button.
     */
    method AddSaveButton() returns (btn: Widget)
      requires Valid()
      modifies this
      ensures Valid()
      ensures btn == Widget(old(nextId), true) && nextId == old(nextId) + 1
      ensures slaves == NonSave(old(slaves)) + [btn]
      ensures SaveCount(slaves) == 1 && slaves[|slaves| - 1] == btn
    {
      var snapshot := slaves;
      var i := 0;
      while i < |snapshot|
        invariant 0 <= i <= |snapshot|
        invariant Valid() && nextId == old(nextId)
        invariant slaves == NonSave(snapshot[..i]) + snapshot[i..]
      {
        WalkStep(snapshot, i, slaves);
        if snapshot[i].isSave {
          Destroy(snapshot[i]);
        }
        i := i + 1;
      }
      assert snapshot[..i] == snapshot;
      btn := Pack(true);
      NonSaveHasNoSave(snapshot);
      SaveCountConcat(NonSave(snapshot), [btn]);
    }
  }
}
