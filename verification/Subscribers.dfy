/** One connection of a client. */
module Subscribers {
  import opened Common
  import opened Registry

  class SubscriberInfo {
    var login: Option<Auth>
    var currentStreamId: string

    constructor ()
      ensures login == None && currentStreamId == ""
    {
      login, currentStreamId := None, "";
    }

    method SetLogin(info: Auth)
      modifies `login
      ensures login == Some(info)
    {
      login := Some(info);
    }

    method SetCurrentStreamID(sid: string)
      modifies `currentStreamId
      ensures currentStreamId == sid
    {
      currentStreamId := sid;
    }

    function MakeFrontSubscriberInfo(): (front: Option<Front>)
      reads this
      ensures front.Some? <==> login.Some?
    {
      if login.Some? then Some(FrontOf(login.value)) else None
    }
  }
}
