/** A map written as an object whose member names are the texts of its keys. */
module KeyedFile {
  import opened Tables

  predicate Injective<K(!new)>(keys: set<K>, text: K -> string) {
    forall a, b | a in keys && b in keys :: text(a) == text(b) ==> a == b
  }

  ghost function KeyFrom<K(!new)>(keys: set<K>, text: K -> string, name: string): K
    requires exists k | k in keys :: text(k) == name
    ensures KeyFrom(keys, text, name) in keys && text(KeyFrom(keys, text, name)) == name
  {
    var k :| k in keys && text(k) == name;
    k
  }

  ghost function Entries<K(!new), V, J>(p: map<K, V>, text: K -> string, write: V -> J): map<string, J> {
    map name | name in (set k | k in p :: text(k)) :: write(p[KeyFrom(p.Keys, text, name)])
  }

  predicate Readable<V, J>(entries: map<string, J>, read: (string, J) -> Option<V>) {
    forall name | name in entries :: read(name, entries[name]).Some?
  }

  function Keys<K(!new), V, J>(entries: map<string, J>, read: (string, J) -> Option<V>, keyOf: V -> K): set<K>
    requires Readable(entries, read)
  {
    set name | name in entries :: keyOf(read(name, entries[name]).value)
  }

  function Loaded<K(!new), V, J>(entries: map<string, J>, text: K -> string, read: (string, J) -> Option<V>, keyOf: V -> K)
    : map<K, V>
    requires Readable(entries, read)
  {
    map k | k in Keys(entries, read, keyOf) && text(k) in entries :: read(text(k), entries[text(k)]).value
  }

  lemma EntryOf<K(!new), V, J>(p: map<K, V>, text: K -> string, write: V -> J, k: K)
    requires Injective(p.Keys, text) && k in p
    ensures text(k) in Entries(p, text, write) && Entries(p, text, write)[text(k)] == write(p[k])
  {
    assert KeyFrom(p.Keys, text, text(k)) == k;
  }

  lemma {:induction false} ImageCount<K(!new)>(keys: set<K>, text: K -> string, image: set<string>)
    requires Injective(keys, text) && image == set k | k in keys :: text(k)
    ensures |image| == |keys|
  {
    if keys == {} {
      assert image == {};
    } else {
      var k :| k in keys;
      assert image - {text(k)} == set other | other in keys - {k} :: text(other);
      ImageCount(keys - {k}, text, image - {text(k)});
    }
  }

  /** Writing every value under its key and reading the members back restores
      the map, if single values survive that. */
  lemma EntriesLoadBack<K(!new), V, J>(p: map<K, V>, text: K -> string, write: V -> J,
                                       read: (string, J) -> Option<V>, keyOf: V -> K)
    requires Injective(p.Keys, text)
    requires forall k | k in p :: keyOf(p[k]) == k && read(text(k), write(p[k])) == Some(p[k])
    ensures var entries := Entries(p, text, write);
            |entries| == |p| && Readable(entries, read) && Loaded(entries, text, read, keyOf) == p
  {
    var entries := Entries(p, text, write);
    ImageCount(p.Keys, text, entries.Keys);
    forall name | name in entries ensures read(name, entries[name]) == Some(p[KeyFrom(p.Keys, text, name)]) {
      EntryOf(p, text, write, KeyFrom(p.Keys, text, name));
    }
    forall k | k in p ensures text(k) in entries && read(text(k), entries[text(k)]) == Some(p[k]) {
      EntryOf(p, text, write, k);
    }
    forall k ensures k in Keys(entries, read, keyOf) <==> k in p {
      if k in p {
        assert text(k) in entries;
      }
    }
    assert Loaded(entries, text, read, keyOf) == p;
  }

  /** Members that are each filed under their own key load without loss. */
  lemma LoadedIsKeyed<K(!new), V, J>(entries: map<string, J>, text: K -> string, read: (string, J) -> Option<V>, keyOf: V -> K)
    requires Readable(entries, read)
    requires forall name | name in entries :: text(keyOf(read(name, entries[name]).value)) == name
    ensures var p := Loaded(entries, text, read, keyOf);
            |p| == |entries| &&
            forall k | k in p :: text(k) in entries && read(text(k), entries[text(k)]) == Some(p[k]) && keyOf(p[k]) == k
  {
    var p := Loaded(entries, text, read, keyOf);
    forall name | name in entries ensures keyOf(read(name, entries[name]).value) in p {
    }
    assert entries.Keys == set k | k in p :: text(k);
    ImageCount(p.Keys, text, entries.Keys);
  }
}
