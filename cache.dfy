// `CacheService`: the Memcached cache of video records. The client handle can
// be dropped for good after a connection-type error; the server's answers to
// the calls the service makes are given as a script, one answer per call.

module Cache {
  import opened Common

  /** How the Memcached server answers one call: normally, or with an error
      whose text is `message`. */
  datatype CacheCall = Served | Fails(message: string)

  /** A stored value and the expiry it was stored with (expiry itself is not
      modelled: there is no clock). */
  datatype CacheEntry = CacheEntry(data: Item, ttl: int)

  /** `ELASTICACHE_MEMCACHED_TTL` when not configured otherwise. */
  const DefaultCacheTtl: int := 3600

  /** A `get` error drops the client when its lower-cased text mentions a
      timeout or a connection. */
  predicate DisablesCache(message: string)
  {
    Contains(Lower(message), "timeout") || Contains(Lower(message), "connection")
  }

  /** `ttl or settings.ELASTICACHE_MEMCACHED_TTL` */
  function EffectiveTtl(ttl: Option<int>, defaultTtl: int): (r: int)
    ensures (ttl.None? || ttl.value == 0) ==> r == defaultTtl
    ensures ttl.Some? && ttl.value != 0 ==> r == ttl.value
  {
    if ttl.Some? && ttl.value != 0 then ttl.value else defaultTtl
  }

  /** `get_video_info_key` */
  function VideoInfoKey(videoId: string, ownerUsername: string): string
  {
    "video_info:" + ownerUsername + ":" + videoId
  }

  /** Video ids hold no `:`, so distinct (owner, video) pairs never share a cache
      key. */
  lemma VideoInfoKeyInjective(v1: string, o1: string, v2: string, o2: string)
    requires ':' !in v1 && ':' !in v2
    requires VideoInfoKey(v1, o1) == VideoInfoKey(v2, o2)
    ensures v1 == v2 && o1 == o2
  {
    var p1 := "video_info:" + o1;
    var p2 := "video_info:" + o2;
    assert VideoInfoKey(v1, o1) == p1 + [':'] + v1;
    assert VideoInfoKey(v2, o2) == p2 + [':'] + v2;
    LastIndexAfter(p1, ':', v1);
    LastIndexAfter(p2, ':', v2);
    assert p1 == VideoInfoKey(v1, o1)[..|p1|] == p2;
    assert v1 == VideoInfoKey(v1, o1)[|p1| + 1..] == v2;
    assert o1 == p1[11..] == o2;
  }

  /** A needle found at position `p` of the haystack is contained in it. */
  lemma {:induction false} ContainsAt(hay: string, needle: string, p: nat)
    requires p + |needle| <= |hay| && hay[p..p + |needle|] == needle
    ensures Contains(hay, needle)
    decreases p
  {
    if p > 0 {
      assert hay[1..][p - 1..p - 1 + |needle|] == hay[p..p + |needle|];
      ContainsAt(hay[1..], needle, p - 1);
    } else {
      assert needle <= hay;
    }
  }

  /** An error whose text, at some position and in any letter case, spells a
      needle drops the client: the test is case-insensitive. */
  lemma MentionDisables(message: string, needle: string, p: nat)
    requires needle == "timeout" || needle == "connection"
    requires p + |needle| <= |message|
    requires forall j :: 0 <= j < |needle| ==> LowerChar(message[p + j]) == needle[j]
    ensures DisablesCache(message)
  {
    var l := Lower(message);
    assert l[p..p + |needle|] == needle;
    ContainsAt(l, needle, p);
  }

  /** "Connection refused" switches the cache off. */
  lemma ConnectionErrorDisables()
    ensures DisablesCache("Connection refused")
  {
    MentionDisables("Connection refused", "connection", 0);
  }

  /** "socket TIMEOUT" switches the cache off. */
  lemma TimeoutErrorDisables()
    ensures DisablesCache("socket TIMEOUT")
  {
    MentionDisables("socket TIMEOUT", "timeout", 7);
  }

  /** Any other error (here one lacking an `i`) keeps the client. */
  lemma OtherErrorKeepsClient()
    ensures !DisablesCache("key too long")
  {
    var m := "key too long";
    forall i | 0 <= i < |m| ensures m[i] != 'i' && m[i] != 'I' {
    }
    WithoutIKeepsClient(m);
  }

  /** A message with no `i` in either case names neither a timeout nor a
      connection. */
  lemma WithoutIKeepsClient(m: string)
    requires forall i :: 0 <= i < |m| ==> m[i] != 'i' && m[i] != 'I'
    ensures !DisablesCache(m)
  {
    var l := Lower(m);
    forall i | 0 <= i < |l| ensures l[i] != 'i' {
      assert l[i] == LowerChar(m[i]);
    }
    assert "timeout"[1] == 'i';
    assert "connection"[7] == 'i';
    NotContainedWithout(l, "timeout", 'i');
    NotContainedWithout(l, "connection", 'i');
  }

  /** A needle holding a character the haystack lacks is not in it. */
  lemma {:induction false} NotContainedWithout(hay: string, needle: string, c: char)
    requires c in needle
    requires forall i :: 0 <= i < |hay| ==> hay[i] != c
    ensures !Contains(hay, needle)
    decreases |hay|
  {
    var k :| 0 <= k < |needle| && needle[k] == c;
    if |needle| <= |hay| {
      assert hay[k] != needle[k];
    }
    if hay != [] {
      NotContainedWithout(hay[1..], needle, c);
    }
  }

  class CacheService {
    /** The TTL used when a caller gives none (or 0). */
    const defaultTtl: int
    /** `self.client is not None` */
    var connected: bool
    /** The server's contents. */
    var entries: map<string, CacheEntry>
    /** The server's answers to the next calls; once exhausted it serves normally. */
    var script: seq<CacheCall>

    /** `_connect`: a blank endpoint leaves the client unset; `clientFails`
        stands for the client constructor raising. */
    constructor(endpoint: string, clientFails: bool, defaultTtl: int, entries: map<string, CacheEntry>, script: seq<CacheCall>)
      ensures connected == (endpoint != "" && !clientFails)
      ensures this.defaultTtl == defaultTtl && this.entries == entries && this.script == script
    {
      this.defaultTtl := defaultTtl;
      this.connected := endpoint != "" && !clientFails;
      this.entries := entries;
      this.script := script;
    }

    predicate IsAvailable()
      reads this
    {
      connected
    }

    function NextCall(): CacheCall
      reads this
    {
      if script == [] then Served else script[0]
    }

    function LaterCalls(): seq<CacheCall>
      reads this
    {
      if script == [] then [] else script[1..]
    }

    /** `get`: a falsy stored value reads as a miss; an error reads as a miss and
        drops the client exactly when it is a connection-type error. */
    method Get(key: string) returns (r: Option<Item>)
      modifies this
      ensures !old(connected) ==> r == None && connected == old(connected) && script == old(script)
      ensures entries == old(entries)
      ensures old(connected) ==> script == old(LaterCalls())
      ensures old(connected) && old(NextCall()).Served? ==>
                connected && r == (if key in entries && entries[key].data != map[] then Some(entries[key].data) else None)
      ensures old(connected) && old(NextCall()).Fails? ==>
                r == None && connected == !DisablesCache(old(NextCall()).message)
    {
      if !connected {
        return None;
      }
      var call := NextCall();
      script := LaterCalls();
      if call.Fails? {
        if DisablesCache(call.message) {
          connected := false;
        }
        return None;
      }
      if key in entries && entries[key].data != map[] {
        r := Some(entries[key].data);
      } else {
        r := None;
      }
    }

    /** `set`: stores with `ttl or` the default TTL; an error returns false and
        keeps the client. */
    method Set(key: string, data: Item, ttl: Option<int>) returns (r: bool)
      modifies this
      ensures connected == old(connected)
      ensures !old(connected) ==> !r && entries == old(entries) && script == old(script)
      ensures old(connected) ==> script == old(LaterCalls())
      ensures old(connected) && old(NextCall()).Served? ==>
                r && entries == old(entries)[key := CacheEntry(data, EffectiveTtl(ttl, defaultTtl))]
      ensures old(connected) && old(NextCall()).Fails? ==> !r && entries == old(entries)
    {
      if !connected {
        return false;
      }
      var call := NextCall();
      script := LaterCalls();
      if call.Fails? {
        return false;
      }
      entries := entries[key := CacheEntry(data, EffectiveTtl(ttl, defaultTtl))];
      r := true;
    }

    /** `delete`: an error returns false and keeps the client. */
    method Delete(key: string) returns (r: bool)
      modifies this
      ensures connected == old(connected)
      ensures !old(connected) ==> !r && entries == old(entries) && script == old(script)
      ensures old(connected) ==> script == old(LaterCalls())
      ensures old(connected) && old(NextCall()).Served? ==> r && entries == old(entries) - {key}
      ensures old(connected) && old(NextCall()).Fails? ==> !r && entries == old(entries)
    {
      if !connected {
        return false;
      }
      var call := NextCall();
      script := LaterCalls();
      if call.Fails? {
        return false;
      }
      entries := entries - {key};
      r := true;
    }

    /** `invalidate_video_info`: deletes exactly the video's info key. */
    method InvalidateVideoInfo(videoId: string, ownerUsername: string) returns (r: bool)
      modifies this
      ensures connected == old(connected)
      ensures !old(connected) ==> !r && entries == old(entries) && script == old(script)
      ensures old(connected) ==> script == old(LaterCalls())
      ensures old(connected) && old(NextCall()).Served? ==> r && entries == old(entries) - {VideoInfoKey(videoId, ownerUsername)}
      ensures old(connected) && old(NextCall()).Fails? ==> !r && entries == old(entries)
    {
      r := Delete(VideoInfoKey(videoId, ownerUsername));
    }
  }
}
