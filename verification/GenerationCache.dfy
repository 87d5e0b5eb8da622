/** The two caches keyed by sums of generations: the credential files AuthReconciler registers under auth plus secret
 *  (internal/controller/auth.go) and the client HostReconciler dials under host plus credentials
 *  (internal/controller/host.go). */
module GenerationCache {
  import opened Common

  /** A registered value with the key it was stored under and the generations it was made from. */
  datatype Cached = Cached(key: nat, first: nat, second: nat)

  predicate Made(e: Cached) { e.key == e.first + e.second }

  /** As long as neither part has gone down, equal keys mean equal parts; in general they do exactly if the second part
   *  has not gone down. */
  lemma KeysAgree(e: Cached, first: nat, second: nat)
    requires Made(e) && e.first <= first
    ensures e.key == first + second ==> ((e.first == first && e.second == second) <==> e.second <= second)
  {
  }

  /** Pointing a host at another auth raises the host's generation; if the other credentials are one generation behind,
   *  the key stays the same and the old client is kept. */
  lemma KeyMisleads(e: Cached)
    requires Made(e) && e.second > 0
    ensures e.key == (e.first + 1) + (e.second - 1)
    ensures (e.first, e.second) != (e.first + 1, e.second - 1)
  {
  }

  /** One host that keeps its auth, and that auth's secret. Generations only grow. */
  class Caches {
    var host: nat
    var auth: nat
    var secret: nat
    /** The entry of AuthStore and the entry of HostStore; the second part of a client is the key of the files it was
     *  dialled with. */
    var files: Option<Cached>
    var client: Option<Cached>
    /** How often a client has been dialled. */
    ghost var dials: nat
    /** How often files have been registered, and how many calls have not been heard. */
    ghost var writes: nat
    ghost var missed: nat
    /** Whether anything happens between the reads of a reconcile. */
    const alone: bool
    /** Whether every call gets through. */
    const sure: bool

    ghost predicate Valid()
      reads this
    {
      && (files.Some? ==> Made(files.value) && files.value.first <= auth && files.value.second <= secret)
      && (client.Some? ==> Made(client.value) && client.value.first <= host)
      && (client.Some? ==> files.Some? && client.value.second <= files.value.key)
    }

    constructor (alone: bool, sure: bool)
      ensures Valid() && this.alone == alone && this.sure == sure
    {
      this.alone, this.sure := alone, sure;
      host, auth, secret := 0, 0, 0;
      files, client, dials, writes, missed := None, None, 0, 0, 0;
    }

    /** Users edit the three objects. */
    method Edit()
      requires Valid()
      modifies this`host, this`auth, this`secret
      ensures Valid() && old(host) <= host && old(auth) <= auth && old(secret) <= secret
      ensures alone ==> host == old(host) && auth == old(auth) && secret == old(secret)
    {
      if !alone {
        var h: nat, a: nat, s: nat := *, *, *;
        host, auth, secret := host + h, auth + a, secret + s;
      }
    }

    /** A call that may fail. */
    method Call() returns (ok: bool)
      requires Valid()
      modifies this`missed
      ensures Valid() && missed == old(missed) + (if ok then 0 else 1) && (sure ==> ok)
    {
      ok := Chance(sure);
      if !ok { missed := missed + 1; }
    }

    /** AuthReconciler: reads the auth, then the secret, and registers the files unless their key is the same. */
    method ReconcileAuth() returns (done: bool)
      requires Valid()
      modifies this`host, this`auth, this`secret, this`files, this`writes, this`missed
      ensures Valid() && old(host) <= host && old(auth) <= auth && old(secret) <= secret
      ensures alone ==> host == old(host) && auth == old(auth) && secret == old(secret)
      ensures files == old(files) || (files.Some? && (old(files).Some? ==> old(files).value.key <= files.value.key))
      ensures old(files.Some?) ==> files.Some?
      ensures sure ==> done
      ensures done ==> missed == old(missed)
      ensures done ==>
                writes == old(writes)
                          + (if old(files).Some? && old(files).value.key == files.value.key then 0 else 1)
      ensures done && alone ==> files == Some(Cached(auth + secret, auth, secret))
      ensures done ==>
                files.Some? && old(auth) <= files.value.first <= auth && old(secret) <= files.value.second <= secret
    {
      var found := files;
      var a := auth;
      Edit();
      var s := secret;
      var got := Call();
      if !got { return false; }
      if found.Some? && found.value.key == a + s {
        KeysAgree(found.value, a, s);
        return true;
      }
      Edit();
      var registered := Call();
      if !registered { return false; }
      files := Some(Cached(a + s, a, s));
      writes := writes + 1;
      done := true;
    }

    /** Other reconcilers and users between two reads of a host's reconcile. */
    method Interfere()
      requires Valid()
      modifies this`host, this`auth, this`secret, this`files, this`writes, this`missed
      ensures Valid() && old(host) <= host && old(auth) <= auth && old(secret) <= secret
      ensures old(files.Some?) ==> files.Some? && old(files.value.key) <= files.value.key
      ensures alone ==> files == old(files) && host == old(host)
    {
      if !alone {
        var _ := ReconcileAuth();
        Edit();
      }
    }

    /** HostReconciler up to the probe: reads the host, looks up the credentials and then the client, and dials anew
     *  unless the key is the same. `h` and `g` are the generations it read. */
    method ReconcileHost() returns (reached: bool, h: nat, g: nat)
      requires Valid()
      modifies this
      ensures Valid()
      ensures reached ==> client.Some? && client.value == Cached(h + g, h, g) && old(host) <= h <= host
      ensures reached ==> old(files.Some?) ==> old(files.value.key) <= g
      ensures reached ==> dials == if old(client) == Some(Cached(h + g, h, g)) then old(dials) else old(dials) + 1
      ensures reached && alone ==> files.Some? && client.value.first == host && client.value.second == files.value.key
      ensures old(files.Some?) ==> reached
      ensures !reached ==> client == old(client) && dials == old(dials)
    {
      h, g := host, 0;
      Interfere();
      if files.None? { return false, h, g; }
      g := files.value.key;
      Interfere();
      if client.Some? && client.value.key == h + g {
        KeysAgree(client.value, h, g);
        return true, h, g;
      }
      client := Some(Cached(h + g, h, g));
      dials := dials + 1;
      reached := true;
    }
  }
}
