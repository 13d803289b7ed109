/**
 * The default-dialer cache as an object: a per-user map filled by reads and
 * rewritten in place when a package broadcast or a setting change arrives,
 * backed by an injected resolver (the DefaultDialerManagerAdapter). The
 * reads, the refreshes and the resolver's Resolve are proved against the
 * functions of module CacheSpec.
 */
module DialerCache {

  import opened CacheSpec

  /**
   * The injected resolver as the tests stub it: a per-user answer that the
   * tests may re-stub mid-scenario, and a ghost record of how many times it
   * was asked about each user.
   */
  class ResolverStub {
    var answers: UserId -> PackageName
    ghost var calls: map<UserId, nat>

    constructor (answers: UserId -> PackageName)
      ensures this.answers == answers && calls == map[]
    {
      this.answers := answers;
      calls := map[];
    }

    /** Resolves the default dialer of user u, and records the call. */
    method Resolve(u: UserId) returns (d: PackageName)
      modifies this`calls
      ensures d == answers(u)
      ensures calls == Bumped(old(calls), {u})
    {
      d := answers(u);
      calls := Bumped(calls, {u});
    }

    /** From now on the resolver answers d for user u; other users are unaffected. */
    method Stub(u: UserId, d: PackageName)
      modifies this`answers
      ensures answers(u) == d
      ensures forall v :: v != u ==> answers(v) == old(answers)(v)
    {
      var previous := answers;
      answers := v => if v == u then d else previous(v);
    }
  }

  class DefaultDialerCache {
    /** The resolver consulted on a miss and on every refresh. */
    const resolver: ResolverStub
    /** The user a read without a user argument is for. */
    const currentUser: UserId
    /** The cached default dialer of each user read so far. */
    var cache: map<UserId, PackageName>

    constructor (resolver: ResolverStub, currentUser: UserId)
      ensures this.resolver == resolver && this.currentUser == currentUser
      ensures cache == map[]
    {
      this.resolver := resolver;
      this.currentUser := currentUser;
      cache := map[];
    }

    /**
     * The default dialer of user u: the cached entry when there is one,
     * without calling the resolver; otherwise the resolver's answer, which
     * is stored.
     */
    method Get(u: UserId) returns (d: PackageName)
      modifies this`cache, resolver`calls
      ensures u in old(cache) ==> d == old(cache)[u] && cache == old(cache)
                                  && resolver.calls == old(resolver.calls)
      ensures u !in old(cache) ==> d == resolver.answers(u) && cache == old(cache)[u := d]
                                   && resolver.calls == Bumped(old(resolver.calls), {u})
      ensures (Snapshot(cache, resolver.calls), d)
              == Read(Snapshot(old(cache), old(resolver.calls)), resolver.answers, u)
    {
      if u in cache {
        d := cache[u];
      } else {
        d := resolver.Resolve(u);
        cache := cache[u := d];
      }
    }

    /** The default dialer of the current user; shares that user's entry. */
    method GetCurrent() returns (d: PackageName)
      modifies this`cache, resolver`calls
      ensures (Snapshot(cache, resolver.calls), d)
              == Read(Snapshot(old(cache), old(resolver.calls)), resolver.answers, currentUser)
    {
      d := Get(currentUser);
    }

    /**
     * Re-resolves each user in users against the resolver's current answers,
     * at once, one resolver call per user; entries of other users stay.
     */
    method RefreshUsers(users: set<UserId>)
      requires users <= cache.Keys
      modifies this`cache, resolver`calls
      ensures cache == Refreshed(old(cache), resolver.answers, users)
      ensures resolver.calls == Bumped(old(resolver.calls), users)
    {
      var todo := users;
      ghost var done: set<UserId> := {};
      while todo != {}
        invariant todo + done == users && todo !! done
        invariant cache == Refreshed(old(cache), resolver.answers, done)
        invariant resolver.calls == Bumped(old(resolver.calls), done)
        decreases todo
      {
        // Establishes that todo has an element, for the existence check of :| below.
        if forall v :: v !in todo {
          assert false;
        }
        var u :| u in todo;
        RefreshedStep(old(cache), resolver.answers, done, u);
        BumpedStep(old(resolver.calls), done, u);
        var d := resolver.Resolve(u);
        cache := cache[u := d];
        todo, done := todo - {u}, done + {u};
      }
    }

    /**
     * The package broadcast receiver: a changed or added package refreshes
     * every cached user; a removal that is not part of a replace refreshes
     * the users whose cached dialer is the removed package; a removal that
     * is part of a replace does nothing. Any other broadcast is taken to do
     * nothing as well.
     */
    method OnPackageEvent(e: PkgEvent)
      modifies this`cache, resolver`calls
      ensures cache == Refreshed(old(cache), resolver.answers, Affected(old(cache), e))
      ensures resolver.calls == Bumped(old(resolver.calls), Affected(old(cache), e))
    {
      match e {
        case Changed(_) =>
          RefreshUsers(cache.Keys);
        case Added(_) =>
          RefreshUsers(cache.Keys);
        case Removed(p, replacing) =>
          if !replacing {
            RefreshUsers(set u | u in cache && cache[u] == p);
          } else {
            ReplacingRemovalIsNoop(cache, resolver.answers, resolver.calls, e);
          }
        case Other =>
          ReplacingRemovalIsNoop(cache, resolver.answers, resolver.calls, e);
      }
    }

    /** The setting observer: a change of the default-dialer setting refreshes every cached user. */
    method OnSettingChanged()
      modifies this`cache, resolver`calls
      ensures cache == Refreshed(old(cache), resolver.answers, old(cache).Keys)
      ensures resolver.calls == Bumped(old(resolver.calls), old(cache).Keys)
    {
      RefreshUsers(cache.Keys);
    }
  }
}
