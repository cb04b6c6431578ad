/**
 * The Mixpanel analytics back end: it identifies the visitor behind an
 * experiment user, builds the property dictionary of an event and hands
 * "Enrolled In Experiment" and "Goal Recorded" events to its tracker.
 *
 * The tracker is modelled by the log of the events it was asked to run; the
 * clock value put under `time` is an input.
 */
module MixpanelAnalytics {
  import opened Wrappers

  /** A request-like object; `meta` is its `META` dictionary, `None` when it has no such attribute. */
  datatype Request = Request(meta: Option<map<string, string>>)

  /**
   * What an analytics call receives as the experiment user: `request` is its
   * `request` attribute, `None` when it has none, in which case the object
   * itself is used as the request and `meta` is its own `META` attribute.
   * `principal` stands for whatever the identity computation reads (session,
   * account).
   */
  datatype ExperimentUser = ExperimentUser(request: Option<Request>, meta: Option<map<string, string>>, principal: nat)

  /** An event handed to the tracker. */
  datatype Event = Event(name: string, properties: map<string, string>)

  /** Python truthiness of an optional string: present and not empty. */
  predicate Truthy(v: Option<string>)
  {
    v.Some? && v.value != ""
  }

  /** The request whose `META` the identification consults. */
  function RequestOf(user: ExperimentUser): Request
  {
    match user.request
    case Some(request) => request
    case None => Request(user.meta)
  }

  /** The address identification records for `user`. */
  function RemoteAddrOf(user: ExperimentUser): Option<string>
  {
    match RequestOf(user).meta
    case None => None
    case Some(meta) => Get(meta, "REMOTE_ADDR")
  }

  /** The computed event keys with the fields they are taken from, in the order they are considered. */
  function ComputedFields(remoteAddr: Option<string>, identity: Option<string>): seq<(string, Option<string>)>
  {
    [("ip", remoteAddr), ("distinct_id", identity)]
  }

  /** Adds to `base` each computed key the caller did not supply and whose field is truthy. */
  function Fill(base: map<string, string>, fields: seq<(string, Option<string>)>, props: map<string, string>): map<string, string>
    decreases |fields|
  {
    if fields == [] then base
    else
      var m := Fill(base, fields[..|fields| - 1], props);
      var (key, value) := fields[|fields| - 1];
      if key !in props && Truthy(value) then m[key := value.value] else m
  }

  /** `{key}` when the caller did not supply `key` and its field is truthy, otherwise nothing. */
  function Added(key: string, field: Option<string>, props: map<string, string>): set<string>
  {
    if key !in props && Truthy(field) then {key} else {}
  }

  /**
   * The properties of an event: `time`, then `ip` and `distinct_id` taken
   * from the address and identity, and the caller's properties over all of
   * them.
   */
  function PropertiesOf(props: map<string, string>, now: string, remoteAddr: Option<string>, identity: Option<string>): (r: map<string, string>)
    ensures "time" in r
    ensures "time" !in props ==> r["time"] == now
    ensures forall k :: k in props ==> k in r && r[k] == props[k]
    ensures r.Keys == {"time"} + props.Keys + Added("ip", remoteAddr, props) + Added("distinct_id", identity, props)
    ensures "ip" !in props ==> ("ip" in r <==> Truthy(remoteAddr))
    ensures "ip" !in props && Truthy(remoteAddr) ==> r["ip"] == remoteAddr.value
    ensures "distinct_id" !in props ==> ("distinct_id" in r <==> Truthy(identity))
    ensures "distinct_id" !in props && Truthy(identity) ==> r["distinct_id"] == identity.value
  {
    var base, fields := map["time" := now], ComputedFields(remoteAddr, identity);
    assert fields[..1][..0] == [];
    var withIp := if "ip" !in props && Truthy(remoteAddr) then base["ip" := remoteAddr.value] else base;
    assert Fill(base, fields[..1], props) == withIp;
    var computed := if "distinct_id" !in props && Truthy(identity) then withIp["distinct_id" := identity.value] else withIp;
    assert Fill(base, fields, props) == computed;
    Fill(base, fields, props) + props
  }

  class Mixpanel {
    /** The identity computation of the analytics base class; `None` when it cannot identify the user. */
    const computeId: ExperimentUser -> Option<string>
    /** The events the tracker has been asked to run, oldest first. */
    var events: seq<Event>
    var remoteAddr: Option<string>
    var identity: Option<string>

    constructor (computeId: ExperimentUser -> Option<string>)
      ensures this.computeId == computeId
      ensures events == [] && remoteAddr == None && identity == None
    {
      this.computeId := computeId;
      events := [];
      remoteAddr := None;
      identity := None;
    }

    /**
     * Identifies `user`: forgets the previous user's address and identity,
     * records the request's address, and reports whether an identity could
     * be computed.
     */
    method Identify(user: ExperimentUser) returns (identified: bool)
      modifies this`identity, this`remoteAddr
      ensures identified <==> computeId(user).Some?
      ensures identity == computeId(user)
      ensures remoteAddr == RemoteAddrOf(user)
    {
      identity := None;
      remoteAddr := None;
      var request;
      match user.request {
        case Some(r) => request := r;
        case None => request := Request(user.meta);
      }
      if request.meta.Some? {
        remoteAddr := Get(request.meta.value, "REMOTE_ADDR");
      }
      match computeId(user) {
        case Some(id) =>
          identity := Some(id);
          identified := true;
        case None =>
          identified := false;
      }
    }

    /** Builds an event's properties from the caller's `props`, the current address and identity, and the clock. */
    method Properties(props: map<string, string>, now: string) returns (result: map<string, string>)
      ensures result == PropertiesOf(props, now, remoteAddr, identity)
    {
      result := map["time" := now];
      var fields := ComputedFields(remoteAddr, identity);
      for i := 0 to |fields|
        invariant result == Fill(map["time" := now], fields[..i], props)
      {
        var (key, value) := fields[i];
        assert fields[..i + 1][..i] == fields[..i];
        if key !in props && Truthy(value) {
          result := result[key := value.value];
        }
      }
      assert fields[..|fields|] == fields;
      result := result + props;
    }

    /** Sends "Enrolled In Experiment" for `user` joining group `groupLabel`, when the user can be identified. */
    method Enroll(experiment: string, user: ExperimentUser, groupLabel: string, now: string)
      modifies this`identity, this`remoteAddr, this`events
      ensures identity == computeId(user) && remoteAddr == RemoteAddrOf(user)
      ensures events == if computeId(user).Some? then
                          old(events) + [Event("Enrolled In Experiment",
                                               PropertiesOf(map["Experiment" := experiment, "Group" := groupLabel],
                                                            now, RemoteAddrOf(user), computeId(user)))]
                        else old(events)
    {
      var identified := Identify(user);
      if identified {
        var properties := Properties(map["Experiment" := experiment, "Group" := groupLabel], now);
        events := events + [Event("Enrolled In Experiment", properties)];
      }
    }

    /** Sends "Goal Recorded" for a goal of type `goalType` reached by `user`, when the user can be identified. */
    method Record(goalType: string, user: ExperimentUser, now: string)
      modifies this`identity, this`remoteAddr, this`events
      ensures identity == computeId(user) && remoteAddr == RemoteAddrOf(user)
      ensures events == if computeId(user).Some? then
                          old(events) + [Event("Goal Recorded",
                                               PropertiesOf(map["Goal Type" := goalType],
                                                            now, RemoteAddrOf(user), computeId(user)))]
                        else old(events)
    {
      var identified := Identify(user);
      if identified {
        var properties := Properties(map["Goal Type" := goalType], now);
        events := events + [Event("Goal Recorded", properties)];
      }
    }
  }
}
