/** HTTP header sets as package proxmox handles them: a Go `map[string][]string`. */
module Headers {

  type Header = map<string, seq<string>>

  const AuthorizationKey := "Authorization"

  /** A Go map value: a reference to one mutable map, so that a callee's writes are
      seen by the caller. A nil map is a null `HeaderMap?`. */
  class HeaderMap {
    var entries: Header

    /** make(map[string][]string) */
    constructor ()
      ensures entries == map[]
    {
      entries := map[];
    }
  }

  /** The entries a nil-able header map holds; a nil map holds none. */
  function EntriesOf(h: HeaderMap?): Header
    reads h
  {
    if h == null then map[] else h.entries
  }

  /** `after` agrees with `before` on every key outside `written`: same presence, same values. */
  ghost predicate UntouchedExcept(before: Header, after: Header, written: set<string>) {
    forall k :: k !in written ==> (k in after <==> k in before) && (k in before ==> after[k] == before[k])
  }
}
