/**
  The SDK object and its web controller, with the persisted keys as mutable
  fields. Both methods are proved against the value-level model in `Resolver`.
 */
module Sdk {
  import opened Wrappers
  import Resolver

  class SkylineSDK {
    /** The persisted keys "initialURL", "statusFlag" and "finalData". */
    var initialURL: Option<string>
    var statusFlag: bool
    var finalData: Option<string>
    /** The push service's tag map, of which "webmaster" is written here. */
    var tags: map<string, string>

    function State(): Resolver.SdkState
      reads this
    {
      Resolver.SdkState(initialURL, statusFlag, finalData, tags)
    }

    /** The shared instance starts from whatever is already persisted. */
    constructor (stored: Resolver.SdkState)
      ensures State() == stored
    {
      initialURL := stored.initialURL;
      statusFlag := stored.statusFlag;
      finalData := stored.finalData;
      tags := stored.tags;
    }

    /**
      The response handler of `sendDataToServer`: `resp` is the decoded reply,
      or `None` after a transport or decode failure.
     */
    method Resolve(resp: Option<Resolver.ResponseData>) returns (c: Resolver.Completion)
      modifies this
      ensures Resolver.Outcome(c, State()) == Resolver.Resolve(old(State()), resp)
      ensures resp.Some? ==> initialURL == Some(resp.value.link) && statusFlag == resp.value.firstLink
      ensures resp.None? ==> c.Failure? && State() == old(State())
    {
      match resp {
        case None =>
          c := Resolver.Failure;
        case Some(d) =>
          tags := tags[Resolver.WebmasterTag := d.naming];
          statusFlag := d.firstLink;
          if initialURL == None {
            initialURL := Some(d.link);
            c := Resolver.Success(d.link);
          } else if Some(d.link) == initialURL {
            if finalData != None {
              c := Resolver.Success(finalData.value);
            } else {
              c := Resolver.Success(d.link);
            }
          } else if statusFlag {
            finalData := None;
            initialURL := Some(d.link);
            c := Resolver.Success(d.link);
          } else {
            initialURL := Some(d.link);
            if finalData != None {
              c := Resolver.Success(finalData.value);
            } else {
              c := Resolver.Success(d.link);
            }
          }
      }
    }
  }

  class WebController {
    /** The shared SDK instance whose `finalData` the page hook writes. */
    const shared: SkylineSDK

    constructor (shared: SkylineSDK)
      ensures this.shared == shared
    {
      this.shared := shared;
    }

    /** `webView(_:didFinish:)`: `currentUrl` is the web view's URL, if it has one. */
    method DidFinish(currentUrl: Option<string>)
      modifies shared
      ensures shared.State() == Resolver.PageFinished(old(shared.State()), currentUrl)
      ensures old(shared.finalData).Some? ==> shared.finalData == old(shared.finalData)
    {
      if shared.finalData == None {
        var finalUrl := currentUrl.GetOr("");
        shared.finalData := Some(finalUrl);
      }
    }
  }
}
