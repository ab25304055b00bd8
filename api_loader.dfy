/**
  The lazy single-instance cache of src/api/index.ts. The module-level
  variable `api` becomes the field of the one ApiCache object.
*/
module ApiLoader {
  import AuthApi

  class ApiCache {
    /** The cached instance, or null before the first successful load. */
    var api: AuthApi.Api?
    /** How many Api instances this cache has ever constructed. */
    ghost var created: nat
    /** How many times the API module has been imported and constructed. */
    ghost var loadAttempts: nat

    /** An instance is cached exactly when one has been created, so at most one ever is. */
    ghost predicate Valid()
      reads this
    {
      created == (if api == null then 0 else 1)
    }

    constructor ()
      ensures Valid() && api == null && loadAttempts == 0
    {
      api := null;
      created := 0;
      loadAttempts := 0;
    }

    /**
      getAPI. `loadSucceeds` says whether the dynamic import of the API module
      and the construction of the instance both complete without throwing.
    */
    method GetApi(loadSucceeds: bool) returns (r: AuthApi.Api?)
      requires Valid()
      modifies this
      ensures Valid()
      ensures old(api) != null ==> r == old(api) && api == old(api) && loadAttempts == old(loadAttempts)
      ensures old(api) == null ==> loadAttempts == old(loadAttempts) + 1
      ensures old(api) == null && loadSucceeds ==> r != null && fresh(r) && r.calls == [] && api == r
      ensures old(api) == null && !loadSucceeds ==> r == null && api == null
    {
      if api != null {
        return api;
      }
      loadAttempts := loadAttempts + 1;
      if loadSucceeds {
        api := new AuthApi.Api();
        created := created + 1;
        return api;
      } else {
        // The failure is logged and nothing is cached, so a later call tries again.
        return null;
      }
    }
  }

  /**
    Two calls in sequence on an empty cache: after the first success the later
    call hands out that same instance without loading again, and a failure
    leaves the next call free to load.
  */
  method GetApiTwice(cache: ApiCache, first: bool, second: bool) returns (a: AuthApi.Api?, b: AuthApi.Api?)
    requires cache.Valid() && cache.api == null
    modifies cache
    ensures cache.Valid() && cache.created <= 1
    ensures a != null <==> first
    ensures a != null ==> b == a && cache.loadAttempts == old(cache.loadAttempts) + 1
    ensures a == null ==> cache.loadAttempts == old(cache.loadAttempts) + 2 && (b != null <==> second)
  {
    a := cache.GetApi(first);
    b := cache.GetApi(second);
  }
}
