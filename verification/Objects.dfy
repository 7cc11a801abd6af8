/** What an API server stores. ConfigMaps and Secrets live in separate stores that
    never interact, so one store models one kind. */
module Objects {

  datatype Option<+T> = None | Some(value: T)

  type Labels = map<string, string>
  type Bytes = seq<bv8>
  type Cluster = string

  /** The part of an object that copyContents mirrors. */
  datatype Payload =
    | ConfigMap(text: map<string, string>, binary: map<string, Bytes>)
    | Secret(data: map<string, Bytes>, secretType: string)

  datatype Key = Key(ns: string, name: string)

  datatype Obj = Obj(
    labels: Labels,
    annotations: Labels,
    finalizers: seq<string>,
    deleting: bool,
    payload: Payload
  )

  type Store = map<Key, Obj>

  function At(s: Store, k: Key): Option<Obj> {
    if k in s then Some(s[k]) else None
  }

  /** Go's map index expression: a missing key reads as "". */
  function Lookup(m: Labels, key: string): string {
    if key in m then m[key] else ""
  }

  /** An object that is being deleted goes away once nothing finalizes it. */
  function Live(o: Obj): Option<Obj> {
    if o.deleting && o.finalizers == [] then None else Some(o)
  }

  /** What a Delete call leaves: nothing, or a terminating object while finalizers remain. */
  function AfterDelete(o: Obj): Option<Obj> {
    Live(o.(deleting := true))
  }

  datatype NamespaceInfo = NamespaceInfo(labels: Labels, terminating: bool)
}
