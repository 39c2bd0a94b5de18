/**
 * An app folder (Documents/Songs or Documents/Video) as a map from file name
 * to contents; `fileExists` is membership of a name. The listing that
 * `contentsOfDirectory` returns is an input whose order is the platform's;
 * it names every entry once.
 */
module Folders {
  import opened FileNaming

  type Folder = map<string, seq<bv8>>

  /** The listing names every entry of the folder exactly once. */
  predicate Lists(listing: seq<string>, names: set<string>) {
    multiset(listing) == multiset(names)
  }

  lemma ListedNames(listing: seq<string>, names: set<string>)
    requires Lists(listing, names)
    ensures forall n :: n in listing <==> n in names
  {
    forall n ensures n in listing <==> n in names {
      assert n in listing <==> n in multiset(listing);
      assert n in names <==> n in multiset(names);
    }
  }

  /** The folder after `copyItem` wrote content under the destination chosen for name. */
  function CopiedInto(folder: Folder, name: string, content: seq<bv8>): (after: Folder)
    ensures after.Keys == folder.Keys + {DestinationName(folder.Keys, name)}
    ensures |after.Keys| == |folder.Keys| + 1
    ensures forall n :: n in folder ==> n in after && after[n] == folder[n]
    ensures after[DestinationName(folder.Keys, name)] == content
  {
    folder[DestinationName(folder.Keys, name) := content]
  }
}
