/** `cacheKey` of internal/cache/redis.go, and when two keys share an entry. */
module CacheKeys {

  const PREFIX := "tm:canonical:"

  function CacheKey(namespace: string, key: string): string {
    PREFIX + namespace + ":" + key
  }

  predicate ColonFree(s: string) {
    ':' !in s
  }

  /** The joined part decides: the prefix is shared by all keys. */
  lemma JoinedPart(ns: string, key: string, ns': string, key': string)
    ensures CacheKey(ns, key) == CacheKey(ns', key') <==> ns + ":" + key == ns' + ":" + key'
  {
    var n := |PREFIX|;
    assert CacheKey(ns, key)[n..] == ns + ":" + key;
    assert CacheKey(ns', key')[n..] == ns' + ":" + key';
    assert CacheKey(ns, key) == PREFIX + (ns + ":" + key);
    assert CacheKey(ns', key') == PREFIX + (ns' + ":" + key');
  }

  lemma FirstColon(ns: string, key: string, ns': string, key': string)
    requires ColonFree(ns) && ColonFree(ns')
    requires ns + ":" + key == ns' + ":" + key'
    ensures ns == ns' && key == key'
  {
    var s, s' := ns + ":" + key, ns' + ":" + key';
    assert s[|ns|] == ':' && s'[|ns'|] == ':';
    assert forall i | 0 <= i < |ns| :: s[i] == ns[i] != ':';
    assert forall i | 0 <= i < |ns'| :: s'[i] == ns'[i] != ':';
    assert |ns| == |ns'|;
    assert s[..|ns|] == ns && s'[..|ns'|] == ns';
    assert s[|ns| + 1..] == key && s'[|ns'| + 1..] == key';
  }

  /** With colon-free namespaces an entry belongs to one namespace and key only. */
  lemma InjectiveOnColonFree(ns: string, key: string, ns': string, key': string)
    requires ColonFree(ns) && ColonFree(ns')
    ensures CacheKey(ns, key) == CacheKey(ns', key') <==> ns == ns' && key == key'
  {
    JoinedPart(ns, key, ns', key');
    if ns + ":" + key == ns' + ":" + key' {
      FirstColon(ns, key, ns', key');
    }
  }

  /** Every colon in a namespace is a collision: its tail can be read as part of the key. */
  lemma ColonInNamespaceCollides(head: string, tail: string, key: string)
    ensures CacheKey(head + ":" + tail, key) == CacheKey(head, tail + ":" + key)
    ensures head + ":" + tail != head
  {
    assert head + ":" + tail + ":" + key == head + ":" + (tail + ":" + key);
    JoinedPart(head + ":" + tail, key, head, tail + ":" + key);
    assert |head + ":" + tail| > |head|;
  }

  lemma SplitAtColon(s: string) returns (head: string, tail: string)
    requires !ColonFree(s)
    ensures s == head + ":" + tail
  {
    var i :| 0 <= i < |s| && s[i] == ':';
    head, tail := s[..i], s[i + 1..];
  }

  /** No other pair of any kind shares the entry of (ns, key). */
  ghost predicate Unambiguous(ns: string, key: string) {
    forall ns', key' :: CacheKey(ns', key') == CacheKey(ns, key) ==> ns' == ns && key' == key
  }

  /** The exact condition: an entry is unshared if and only if neither part has a colon. */
  lemma UnambiguousExactly(ns: string, key: string)
    ensures Unambiguous(ns, key) <==> ColonFree(ns) && ColonFree(key)
  {
    if !ColonFree(ns) {
      var head, tail := SplitAtColon(ns);
      ColonInNamespaceCollides(head, tail, key);
      assert CacheKey(head, tail + ":" + key) == CacheKey(ns, key);
    } else if !ColonFree(key) {
      var head, tail := SplitAtColon(key);
      ColonInNamespaceCollides(ns, head, tail);
      assert CacheKey(ns + ":" + head, tail) == CacheKey(ns, key);
    } else {
      forall ns', key' | CacheKey(ns', key') == CacheKey(ns, key) ensures ns' == ns && key' == key {
        JoinedPart(ns', key', ns, key);
        OnlyColon(ns', key', ns, key);
      }
    }
  }

  lemma OnlyColon(ns': string, key': string, ns: string, key: string)
    requires ColonFree(ns) && ColonFree(key)
    requires ns' + ":" + key' == ns + ":" + key
    ensures ns' == ns && key' == key
  {
    var s := ns + ":" + key;
    assert s[|ns'|] == ':';
    assert forall i | 0 <= i < |s| && i != |ns| :: s[i] != ':';
    FirstColon(ns', key', ns, key) by {
      assert |ns'| == |ns|;
      assert s[..|ns|] == ns && (ns' + ":" + key')[..|ns'|] == ns';
    }
  }

  /** The collision the service can meet: namespace a:b with key c, namespace a with key b:c. */
  lemma Collision()
    ensures CacheKey("a:b", "c") == CacheKey("a", "b:c") == "tm:canonical:a:b:c"
    ensures ("a:b", "c") != ("a", "b:c")
  {
    ColonInNamespaceCollides("a", "b", "c");
    assert "a:b" == "a" + ":" + "b" && "b:c" == "b" + ":" + "c";
  }
}
