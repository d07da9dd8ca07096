/** The readiness signals of one VM (pkg/define/readiness.go): four channels, each closed through a sync.Once. */
module Readiness {

  datatype Channel = SSHReady | PodmanReady | VNetHostReady | VNetGuestReady

  class Readiness {
    var closed: set<Channel>
    /** The channels whose sync.Once has fired. */
    var fired: set<Channel>

    ghost predicate Valid()
      reads this
    {
      closed == fired
    }

    constructor ()
      ensures Valid() && closed == {}
    {
      closed, fired := {}, {};
    }

    /** Closing a channel that is already closed would panic. */
    method CloseChannel(c: Channel)
      requires c !in closed
      modifies this`closed
      ensures closed == old(closed) + {c}
    {
      closed := closed + {c};
    }

    /** The four Signal methods: true for the call that closes the channel. */
    method Signal(c: Channel) returns (first: bool)
      requires Valid()
      modifies this
      ensures Valid()
      ensures first <==> c !in old(closed)
      ensures closed == old(closed) + {c}
    {
      first := false;
      if c !in fired {
        fired := fired + {c};
        CloseChannel(c);
        first := true;
      }
    }
  }
}
