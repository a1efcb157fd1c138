/** The lifetime of the Vulkan objects the renderer owns, as a log of creation
    and destruction events, and what the construction/teardown order
    guarantees. */
module Lifetime {

  import opened Vulkan

  /** The kinds of object the renderer creates and destroys. */
  datatype Kind = Instance | Surface | Device | Swapchain | ImageView

  datatype Event = Created(kind: Kind, handle: Handle) | Destroyed(kind: Kind, handle: Handle)

  /** `child` is made from, or refers to, an object of kind `parent`, so a
      child must be gone before its parent is destroyed. */
  predicate DependsOn(child: Kind, parent: Kind)
  {
    match child
    case Instance => false
    case Surface => parent == Instance
    case Device => parent == Instance
    case Swapchain => parent == Device || parent == Surface
    case ImageView => parent == Device || parent == Swapchain
  }

  /** The position of a kind in the renderer's construction order. */
  function Rank(kind: Kind): nat
  {
    match kind
    case Instance => 0
    case Surface => 1
    case Device => 2
    case Swapchain => 3
    case ImageView => 4
  }

  /** Construction order puts every parent before its children. */
  lemma DependsOnLowersRank(child: Kind, parent: Kind)
    ensures DependsOn(child, parent) ==> Rank(parent) < Rank(child)
  {
  }

  /** The creation of each view of `views`, in order. */
  function CreatedViews(views: seq<Handle>): seq<Event>
  {
    seq(|views|, k requires 0 <= k < |views| => Created(ImageView, views[k]))
  }

  /** The destruction of each view of `views`, in order. */
  function DestroyedViews(views: seq<Handle>): seq<Event>
  {
    seq(|views|, k requires 0 <= k < |views| => Destroyed(ImageView, views[k]))
  }

  /** The events of the constructor: instance, surface, device, swapchain, then
      one view per swapchain image in image order. */
  function ConstructionLog(instance: Handle, surface: Handle, device: Handle, swapChain: Handle, views: seq<Handle>): seq<Event>
  {
    [Created(Instance, instance), Created(Surface, surface), Created(Device, device), Created(Swapchain, swapChain)]
      + CreatedViews(views)
  }

  /** The construction log, one event at a time, as the constructor appends it. */
  lemma ConstructionLogSteps(instance: Handle, surface: Handle, device: Handle, swapChain: Handle, views: seq<Handle>)
    ensures ConstructionLog(instance, surface, device, swapChain, views) ==
      [] + [Created(Instance, instance)] + [Created(Surface, surface)] + [Created(Device, device)]
         + [Created(Swapchain, swapChain)] + CreatedViews(views)
  {
  }

  /** The events of the destructor: the views in image order, then swapchain,
      device, surface and instance. */
  function TeardownLog(instance: Handle, surface: Handle, device: Handle, swapChain: Handle, views: seq<Handle>): seq<Event>
  {
    DestroyedViews(views)
      + [Destroyed(Swapchain, swapChain), Destroyed(Device, device), Destroyed(Surface, surface), Destroyed(Instance, instance)]
  }

  function KindsOf(log: seq<Event>): (kinds: seq<Kind>)
    ensures |kinds| == |log| && forall i :: 0 <= i < |log| ==> kinds[i] == log[i].kind
  {
    seq(|log|, i requires 0 <= i < |log| => log[i].kind)
  }

  function Reverse<T>(s: seq<T>): (r: seq<T>)
    ensures |r| == |s| && forall i :: 0 <= i < |s| ==> r[i] == s[|s| - 1 - i]
  {
    seq(|s|, i requires 0 <= i < |s| => s[|s| - 1 - i])
  }

  /** Every object created in `log` is destroyed later in it. */
  ghost predicate ReleasedLater(log: seq<Event>)
  {
    forall p :: 0 <= p < |log| && log[p].Created? ==> Destroyed(log[p].kind, log[p].handle) in log[p + 1..]
  }

  /** No object is destroyed while an object created from it is still alive. */
  ghost predicate ChildrenReleasedFirst(log: seq<Event>)
  {
    forall p, q :: 0 <= p < q < |log| && log[p].Created? && log[q].Destroyed? && DependsOn(log[p].kind, log[q].kind) ==>
      Destroyed(log[p].kind, log[p].handle) in log[p + 1..q]
  }

  /** A log made of a creation phase followed by a destruction phase that
      destroys everything created, in an order whose ranks never increase, is
      safe: children go before their parents. */
  lemma {:induction false} RankedTeardownIsSafe(creations: seq<Event>, teardown: seq<Event>)
    requires forall i :: 0 <= i < |creations| ==> creations[i].Created?
    requires forall i :: 0 <= i < |teardown| ==> teardown[i].Destroyed?
    requires forall i :: 0 <= i < |creations| ==> Destroyed(creations[i].kind, creations[i].handle) in teardown
    requires forall i, j :: 0 <= i < j < |teardown| ==> Rank(teardown[i].kind) >= Rank(teardown[j].kind)
    ensures ReleasedLater(creations + teardown)
    ensures ChildrenReleasedFirst(creations + teardown)
  {
    var log := creations + teardown;
    var n := |creations|;
    forall p | 0 <= p < |log| && log[p].Created?
      ensures Destroyed(log[p].kind, log[p].handle) in log[p + 1..]
    {
      assert p < n;
      var e := Destroyed(log[p].kind, log[p].handle);
      var r :| 0 <= r < |teardown| && teardown[r] == e;
      assert log[p + 1..][n + r - p - 1] == e;
    }
    forall p, q | 0 <= p < q < |log| && log[p].Created? && log[q].Destroyed? && DependsOn(log[p].kind, log[q].kind)
      ensures Destroyed(log[p].kind, log[p].handle) in log[p + 1..q]
    {
      assert p < n && n <= q;
      var e := Destroyed(log[p].kind, log[p].handle);
      var r :| 0 <= r < |teardown| && teardown[r] == e;
      assert log[q] == teardown[q - n];
      DependsOnLowersRank(log[p].kind, log[q].kind);
      if q - n <= r {
        assert false;
      }
      assert log[p + 1..q][n + r - p - 1] == e;
    }
  }

  /** The `i`-th event of the construction log. */
  lemma ConstructionLogAt(instance: Handle, surface: Handle, device: Handle, swapChain: Handle, views: seq<Handle>, i: nat)
    requires i < |views| + 4
    ensures var created := ConstructionLog(instance, surface, device, swapChain, views);
      && |created| == |views| + 4
      && created[i] == if i == 0 then Created(Instance, instance)
                       else if i == 1 then Created(Surface, surface)
                       else if i == 2 then Created(Device, device)
                       else if i == 3 then Created(Swapchain, swapChain)
                       else Created(ImageView, views[i - 4])
  {
  }

  /** The `i`-th event of the teardown log. */
  lemma TeardownLogAt(instance: Handle, surface: Handle, device: Handle, swapChain: Handle, views: seq<Handle>, i: nat)
    requires i < |views| + 4
    ensures var released := TeardownLog(instance, surface, device, swapChain, views);
      var v := |views|;
      && |released| == v + 4
      && released[i] == if i < v then Destroyed(ImageView, views[i])
                        else if i == v then Destroyed(Swapchain, swapChain)
                        else if i == v + 1 then Destroyed(Device, device)
                        else if i == v + 2 then Destroyed(Surface, surface)
                        else Destroyed(Instance, instance)
  {
  }

  /** The renderer's destructor releases what its constructor created: every
      created object is destroyed later, and only after every object made from
      it, and the kinds are released in exactly the reverse of the order they
      were created in (views, swapchain, device, surface, instance). Within the
      views the order is the creation order; views do not depend on each other. */
  lemma {:induction false} TeardownReversesConstruction(instance: Handle, surface: Handle, device: Handle, swapChain: Handle, views: seq<Handle>)
    ensures var created := ConstructionLog(instance, surface, device, swapChain, views);
      var released := TeardownLog(instance, surface, device, swapChain, views);
      && KindsOf(released) == Reverse(KindsOf(created))
      && ReleasedLater(created + released)
      && ChildrenReleasedFirst(created + released)
  {
    var created := ConstructionLog(instance, surface, device, swapChain, views);
    var released := TeardownLog(instance, surface, device, swapChain, views);
    var v := |views|;
    ConstructionLogAt(instance, surface, device, swapChain, views, 0);
    TeardownLogAt(instance, surface, device, swapChain, views, 0);
    forall i | 0 <= i < v + 4
      ensures KindsOf(released)[i] == Reverse(KindsOf(created))[i]
    {
      TeardownLogAt(instance, surface, device, swapChain, views, i);
      ConstructionLogAt(instance, surface, device, swapChain, views, v + 3 - i);
    }
    forall i | 0 <= i < |created|
      ensures Destroyed(created[i].kind, created[i].handle) in released
    {
      ConstructionLogAt(instance, surface, device, swapChain, views, i);
      var r := if i < 4 then v + 3 - i else i - 4;
      TeardownLogAt(instance, surface, device, swapChain, views, r);
      assert released[r] == Destroyed(created[i].kind, created[i].handle);
    }
    forall i, j | 0 <= i < j < |released|
      ensures Rank(released[i].kind) >= Rank(released[j].kind)
    {
      TeardownLogAt(instance, surface, device, swapChain, views, i);
      TeardownLogAt(instance, surface, device, swapChain, views, j);
    }
    RankedTeardownIsSafe(created, released);
  }
}
