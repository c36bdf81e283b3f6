/**
 * A platform directory as the record writers see it: named records holding
 * bytes, and the set of sub-directories (collections) that exist.
 */
module Records {
  import opened Plans

  class Directory {
    /** Record path (relative to the directory) to its content. */
    var records: map<string, Bytes>
    /** Sub-directories that exist. */
    var collections: set<string>

    constructor ()
      ensures records == map[] && collections == {}
    {
      records := map[];
      collections := {};
    }

    /** `fs_store`: replace the whole record with `data`. */
    method Store(name: string, data: Bytes)
      modifies this
      ensures records == old(records)[name := data]
      ensures collections == old(collections)
    {
      records := records[name := data];
    }

    /** `fs_mkdir`: make sure the collection exists. */
    method MakeCollection(name: string)
      modifies this
      ensures collections == old(collections) + {name}
      ensures records == old(records)
    {
      collections := collections + {name};
    }

    /** `fs_init` with data: create the leading collection when needed and store the record. */
    method Init(collection: string, name: string, data: Bytes)
      modifies this
      ensures collections == old(collections) + {collection}
      ensures records == old(records)[name := data]
    {
      MakeCollection(collection);
      Store(name, data);
    }
  }
}
