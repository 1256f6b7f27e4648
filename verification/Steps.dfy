/** What the environment contributes to one statement of a worker: fresh identifiers, the order
    in which the database returns rows, and the answers of users, caches and payment providers. */
module Steps {
  import opened Prelude

  datatype Oracle = Oracle(id: Id, ids: seq<Id>, ok: bool, moved: bool, amount: int, text: string)
}
