/** Channel.h and Epoll.cpp: a descriptor's interest mask and its registration with epoll. */
module Channels {
  import opened Base

  datatype Flag = In | Pri | Out | Err | Hup | RdHup

  datatype CtlOp = Add | Mod | Del

  /** `kernel` is what epoll has registered for the descriptor, if anything. */
  datatype Chan = Chan(events: set<Flag>, polling: bool, kernel: Option<set<Flag>>)

  const NEW_CHANNEL := Chan({}, false, None)

  /** epoll_ctl: a wrong operation is an error and changes nothing. */
  function EpollCtl(op: CtlOp, kernel: Option<set<Flag>>, events: set<Flag>): Option<set<Flag>> {
    match op
    case Add => if kernel.None? then Some(events) else kernel
    case Mod => if kernel.Some? then Some(events) else kernel
    case Del => None
  }

  function ChooseOp(c: Chan): CtlOp {
    if !c.polling then Add else if c.events != {} then Mod else Del
  }

  /** The assert of Epoll::updateChannel. */
  predicate UpdateAllowed(c: Chan) {
    c.polling || c.events != {}
  }

  function Updated(c: Chan): Chan {
    var op := ChooseOp(c);
    Chan(c.events, !op.Del?, EpollCtl(op, c.kernel, c.events))
  }

  function EnabledRead(c: Chan): Chan { Updated(c.(events := c.events + {In, Pri})) }
  function EnabledWrite(c: Chan): Chan { Updated(c.(events := c.events + {Out})) }
  function DisabledRead(c: Chan): Chan { Updated(c.(events := c.events - {In})) }
  function DisabledWrite(c: Chan): Chan { Updated(c.(events := c.events - {Out})) }
  function DisabledAll(c: Chan): Chan { Updated(c.(events := {})) }

  predicate Reading(c: Chan) { In in c.events }
  predicate Writing(c: Chan) { Out in c.events }

  /** `polling` says whether epoll knows the descriptor, and epoll then has the current mask. */
  predicate Mirrors(c: Chan) {
    c.kernel == if c.polling then Some(c.events) else None
  }

  /** Between updates the mask alone may have moved; an allowed update restores the mirror and never
      makes an epoll_ctl call that fails. */
  lemma UpdateKeepsMirror(c: Chan, events: set<Flag>)
    requires Mirrors(c) && UpdateAllowed(c.(events := events))
    ensures var u := Updated(c.(events := events));
            Mirrors(u) && u.events == events && (u.polling <==> events != {})
    ensures ChooseOp(c.(events := events)).Add? <==> c.kernel.None?
  {
  }

  class Channel {
    var events: set<Flag>
    var polling: bool
    ghost var kernel: Option<set<Flag>>

    ghost function View(): Chan
      reads this
    {
      Chan(events, polling, kernel)
    }

    constructor ()
      ensures View() == NEW_CHANNEL
    {
      events, polling, kernel := {}, false, None;
    }

    method Update()
      requires UpdateAllowed(View())
      modifies this
      ensures View() == Updated(old(View()))
    {
      var op: CtlOp;
      if !polling {
        assert events != {};
        op := Add;
        polling := true;
      } else if events != {} {
        op := Mod;
      } else {
        op := Del;
        polling := false;
      }
      kernel := EpollCtl(op, kernel, events);
    }

    method EnableRead()
      modifies this
      ensures View() == EnabledRead(old(View()))
      ensures events == old(events) + {In, Pri} && (old(Mirrors(View())) ==> Mirrors(View()))
    {
      events := events + {In, Pri};
      assert In in events;
      Update();
    }

    method EnableWrite()
      modifies this
      ensures View() == EnabledWrite(old(View()))
      ensures events == old(events) + {Out} && (old(Mirrors(View())) ==> Mirrors(View()))
    {
      events := events + {Out};
      assert Out in events;
      Update();
    }

    method DisableRead()
      requires UpdateAllowed(View().(events := events - {In}))
      modifies this
      ensures View() == DisabledRead(old(View()))
      ensures events == old(events) - {In} && (old(Mirrors(View())) ==> Mirrors(View()))
    {
      events := events - {In};
      Update();
    }

    method DisableWrite()
      requires UpdateAllowed(View().(events := events - {Out}))
      modifies this
      ensures View() == DisabledWrite(old(View()))
      ensures events == old(events) - {Out} && (old(Mirrors(View())) ==> Mirrors(View()))
    {
      events := events - {Out};
      Update();
    }

    method DisableAll()
      requires polling
      modifies this
      ensures View() == DisabledAll(old(View()))
      ensures events == {} && (old(Mirrors(View())) ==> Mirrors(View()))
    {
      events := {};
      Update();
    }
  }
}
