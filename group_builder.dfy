/**
 * The route groups of the gateway: a named set of routes sharing a session
 * type and, optionally, the Betweens that authenticate them.
 */
module Groups {
  import opened Common
  import opened Entities

  /** A resource the application registers for an error status, identity only. */
  class Resource {}

  /** Where a dispatch error is routed, identity only. */
  class ErrorTarget {}

  // GroupBuilder.makeBetween, in both versions, is Optional.ofNullable: Common.OfNullable.
}

/** net.tokensmith...gateway.builder.GroupBuilder: with per-status error resources. */
module NetGroupBuilder {
  import opened Common
  import opened Entities
  import opened Groups

  datatype Group = Group(
    name: Nullable<string>,
    sessionClazz: Nullable<SessionClass>,
    authRequired: Option<Between>,
    authOptional: Option<Between>,
    errorResources: map<StatusCode, Resource>,
    dispatchErrors: map<StatusCode, ErrorTarget>)

  datatype GroupBuilderState = GroupBuilderState(
    name: Nullable<string>,
    sessionClazz: Nullable<SessionClass>,
    authRequired: Nullable<Between>,
    authOptional: Nullable<Between>,
    errorResources: map<StatusCode, Resource>,
    dispatchErrors: map<StatusCode, ErrorTarget>)

  /** The group a builder in state s builds. */
  function GroupOf(s: GroupBuilderState): (g: Group)
    ensures g.name == s.name && g.sessionClazz == s.sessionClazz
    ensures g.errorResources == s.errorResources && g.dispatchErrors == s.dispatchErrors
    ensures OrNull(g.authRequired) == s.authRequired && OrNull(g.authOptional) == s.authOptional
  {
    OfNullableRoundTrip(s.authRequired, None);
    OfNullableRoundTrip(s.authOptional, None);
    Group(s.name, s.sessionClazz, OfNullable(s.authRequired), OfNullable(s.authOptional),
          s.errorResources, s.dispatchErrors)
  }

  class GroupBuilder {
    var name: Nullable<string>
    var sessionClazz: Nullable<SessionClass>
    var authRequired: Nullable<Between>
    var authOptional: Nullable<Between>
    var errorResources: map<StatusCode, Resource>
    var dispatchErrors: map<StatusCode, ErrorTarget>

    function State(): GroupBuilderState
      reads this
    {
      GroupBuilderState(name, sessionClazz, authRequired, authOptional, errorResources, dispatchErrors)
    }

    /** Nothing set, both error maps empty. */
    constructor ()
      ensures State() == GroupBuilderState(Null, Null, Null, Null, map[], map[])
    {
      name, sessionClazz, authRequired, authOptional := Null, Null, Null, Null;
      errorResources, dispatchErrors := map[], map[];
    }

    method Name(name: Nullable<string>) returns (b: GroupBuilder)
      modifies this
      ensures b == this && State() == old(State()).(name := name)
    {
      this.name := name;
      b := this;
    }

    method SessionClazz(sessionClazz: Nullable<SessionClass>) returns (b: GroupBuilder)
      modifies this
      ensures b == this && State() == old(State()).(sessionClazz := sessionClazz)
    {
      this.sessionClazz := sessionClazz;
      b := this;
    }

    method AuthRequired(authRequired: Nullable<Between>) returns (b: GroupBuilder)
      modifies this
      ensures b == this && State() == old(State()).(authRequired := authRequired)
    {
      this.authRequired := authRequired;
      b := this;
    }

    method AuthOptional(authOptional: Nullable<Between>) returns (b: GroupBuilder)
      modifies this
      ensures b == this && State() == old(State()).(authOptional := authOptional)
    {
      this.authOptional := authOptional;
      b := this;
    }

    /** Puts the resource under its status, replacing an earlier one. */
    method OnError(statusCode: StatusCode, errorResource: Resource) returns (b: GroupBuilder)
      modifies this
      ensures b == this && State() == old(State()).(errorResources := old(errorResources)[statusCode := errorResource])
    {
      errorResources := errorResources[statusCode := errorResource];
      b := this;
    }

    /** Puts the dispatch error target under its status, replacing an earlier one. */
    method OnDispatchError(statusCode: StatusCode, dispatchError: ErrorTarget) returns (b: GroupBuilder)
      modifies this
      ensures b == this && State() == old(State()).(dispatchErrors := old(dispatchErrors)[statusCode := dispatchError])
    {
      dispatchErrors := dispatchErrors[statusCode := dispatchError];
      b := this;
    }

    /**
     * The group: name, session class and both error maps as they stand, and
     * each auth Between present exactly when it was set to a non-null one.
     */
    method Build() returns (g: Group)
      ensures g.name == name && g.sessionClazz == sessionClazz
      ensures g.errorResources == errorResources && g.dispatchErrors == dispatchErrors
      ensures g.authRequired.Some? <==> authRequired.Ref?
      ensures g.authRequired.Some? ==> g.authRequired.value == authRequired.get
      ensures g.authOptional.Some? <==> authOptional.Ref?
      ensures g.authOptional.Some? ==> g.authOptional.value == authOptional.get
      ensures g == GroupOf(State())
    {
      g := Group(name, sessionClazz, OfNullable(authRequired), OfNullable(authOptional),
                 errorResources, dispatchErrors);
    }
  }
}

/** org.rootservices...gateway.builder.GroupBuilder: the earlier variant without error maps. */
module OrgGroupBuilder {
  import opened Common
  import opened Entities
  import opened Groups

  datatype Group = Group(
    name: Nullable<string>,
    sessionClazz: Nullable<SessionClass>,
    authRequired: Option<Between>,
    authOptional: Option<Between>)

  datatype GroupBuilderState = GroupBuilderState(
    name: Nullable<string>,
    sessionClazz: Nullable<SessionClass>,
    authRequired: Nullable<Between>,
    authOptional: Nullable<Between>)

  class GroupBuilder {
    var name: Nullable<string>
    var sessionClazz: Nullable<SessionClass>
    var authRequired: Nullable<Between>
    var authOptional: Nullable<Between>

    function State(): GroupBuilderState
      reads this
    {
      GroupBuilderState(name, sessionClazz, authRequired, authOptional)
    }

    constructor ()
      ensures State() == GroupBuilderState(Null, Null, Null, Null)
    {
      name, sessionClazz, authRequired, authOptional := Null, Null, Null, Null;
    }

    method Name(name: Nullable<string>) returns (b: GroupBuilder)
      modifies this
      ensures b == this && State() == old(State()).(name := name)
    {
      this.name := name;
      b := this;
    }

    method SessionClazz(sessionClazz: Nullable<SessionClass>) returns (b: GroupBuilder)
      modifies this
      ensures b == this && State() == old(State()).(sessionClazz := sessionClazz)
    {
      this.sessionClazz := sessionClazz;
      b := this;
    }

    method AuthRequired(authRequired: Nullable<Between>) returns (b: GroupBuilder)
      modifies this
      ensures b == this && State() == old(State()).(authRequired := authRequired)
    {
      this.authRequired := authRequired;
      b := this;
    }

    method AuthOptional(authOptional: Nullable<Between>) returns (b: GroupBuilder)
      modifies this
      ensures b == this && State() == old(State()).(authOptional := authOptional)
    {
      this.authOptional := authOptional;
      b := this;
    }

    /** Name and session class as set; an auth Between present exactly when set non-null. */
    method Build() returns (g: Group)
      ensures g.name == name && g.sessionClazz == sessionClazz
      ensures g.authRequired.Some? <==> authRequired.Ref?
      ensures g.authRequired.Some? ==> g.authRequired.value == authRequired.get
      ensures g.authOptional.Some? <==> authOptional.Ref?
      ensures g.authOptional.Some? ==> g.authOptional.value == authOptional.get
    {
      g := Group(name, sessionClazz, OfNullable(authRequired), OfNullable(authOptional));
    }
  }
}
