/** The browser's localStorage, as far as the analytics code uses it:
    getItem and setItem on text keys and values, either of which may throw. */
module WebStorage {

  /** What localStorage.getItem(key) gives: it throws, it returns null for a
      missing key, or it returns the stored text. */
  datatype Lookup = Throws | Null | Item(text: string)

  /** getItem on given storage contents. */
  function Fetch(items: map<string, string>, accessible: bool, key: string): (r: Lookup)
    ensures r.Throws? <==> !accessible
    ensures r.Null? <==> accessible && key !in items
    ensures r.Item? ==> key in items && r.text == items[key]
  {
    if !accessible then Throws
    else if key in items then Item(items[key])
    else Null
  }

  /** getItem after setItem: the key written reads back as the value written,
      and every other key reads as before. */
  lemma ReadAfterWrite(items: map<string, string>, accessible: bool, key: string, value: string, other: string)
    ensures accessible ==> Fetch(items[key := value], accessible, key) == Item(value)
    ensures other != key ==> Fetch(items[key := value], accessible, other) == Fetch(items, accessible, other)
  {
  }

  class LocalStorage {
    /** The stored entries. */
    var items: map<string, string>
    /** False when the browser denies the page its storage: every call throws. */
    var accessible: bool
    /** False when the browser refuses further writes (the quota is used up):
        setItem throws. */
    var acceptsWrites: bool

    constructor (items: map<string, string>, accessible: bool, acceptsWrites: bool)
      ensures this.items == items
      ensures this.accessible == accessible && this.acceptsWrites == acceptsWrites
    {
      this.items := items;
      this.accessible := accessible;
      this.acceptsWrites := acceptsWrites;
    }

    /** localStorage.getItem(key). */
    function GetItem(key: string): (r: Lookup)
      reads this
      ensures r.Throws? <==> !accessible
      ensures r.Item? <==> accessible && key in items
      ensures r.Item? ==> r.text == items[key]
    {
      Fetch(items, accessible, key)
    }

    /** localStorage.setItem(key, value). The result is false when the call
        throws, and then nothing is stored. */
    method SetItem(key: string, value: string) returns (ok: bool)
      modifies this`items
      ensures ok <==> accessible && acceptsWrites
      ensures items == if ok then old(items)[key := value] else old(items)
      ensures ok ==> GetItem(key) == Item(value)
      ensures forall k | k != key :: GetItem(k) == old(GetItem(k))
    {
      ok := accessible && acceptsWrites;
      if ok {
        items := items[key := value];
      }
    }
  }
}
