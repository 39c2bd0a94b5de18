/**
 * Artwork lookup in a file's ID3 metadata (`extractArtwork`, present in
 * both the player screen and the music cell): the first item whose common
 * key is the artwork key and whose data value decodes as an image wins.
 * Loading an item's data can throw; the throw leaves the loop and the
 * function answers nil. Image decoding (`UIImage(data:)`) is a parameter.
 */
module Artwork {
  import opened Options

  type Bytes = seq<bv8>

  /** A picture shown in an image view: a named system symbol or decoded image data. */
  datatype Image = SystemSymbol(name: string) | Picture(data: Bytes)

  /** The placeholder shown where no artwork was found. */
  const MusicNote := SystemSymbol("music.note")

  /** The outcome of `item.load(.dataValue)`. */
  datatype DataLoad = Loaded(data: Option<Bytes>) | LoadThrew

  /** One metadata item: whether its common key is the artwork key, and what loading its data gives. */
  datatype MetadataItem = MetadataItem(isArtworkKey: bool, dataValue: DataLoad)

  /** The item yields an image: artwork key, data loaded, data decoded. */
  predicate Decodes(item: MetadataItem, decode: Bytes -> Option<Image>) {
    item.isArtworkKey && item.dataValue.Loaded? && item.dataValue.data.Some?
    && decode(item.dataValue.data.value).Some?
  }

  /** The item ends the search with nil: artwork key, and loading its data threw. */
  predicate Throws(item: MetadataItem) {
    item.isArtworkKey && item.dataValue.LoadThrew?
  }

  /** What the loop over the items answers. */
  function FirstArtwork(items: seq<MetadataItem>, decode: Bytes -> Option<Image>): Option<Image> {
    if items == [] then None
    else if Decodes(items[0], decode) then decode(items[0].dataValue.data.value)
    else if Throws(items[0]) then None
    else FirstArtwork(items[1..], decode)
  }

  /** Item i decodes, and every item before it neither decodes nor throws. */
  predicate FoundAt(items: seq<MetadataItem>, decode: Bytes -> Option<Image>, i: int) {
    0 <= i < |items| && Decodes(items[i], decode)
    && forall j :: 0 <= j < i ==> !Decodes(items[j], decode) && !Throws(items[j])
  }

  /** A found image comes from an item that decodes, and every item before it neither decodes nor throws. */
  lemma {:induction false} FirstArtworkFound(items: seq<MetadataItem>, decode: Bytes -> Option<Image>)
    requires FirstArtwork(items, decode).Some?
    ensures exists i :: FoundAt(items, decode, i) && decode(items[i].dataValue.data.value) == FirstArtwork(items, decode)
  {
    if !Decodes(items[0], decode) {
      FirstArtworkFound(items[1..], decode);
      var i :| FoundAt(items[1..], decode, i)
        && decode(items[1..][i].dataValue.data.value) == FirstArtwork(items[1..], decode);
      forall j | 0 <= j < i + 1 ensures !Decodes(items[j], decode) && !Throws(items[j]) {
        if j > 0 { assert items[j] == items[1..][j - 1]; }
      }
      assert FoundAt(items, decode, i + 1);
    }
  }

  /** Conversely, the first item that decodes, with no throwing item before it, is the answer. */
  lemma {:induction false} FirstArtworkIsFirst(items: seq<MetadataItem>, decode: Bytes -> Option<Image>, i: nat)
    requires FoundAt(items, decode, i)
    ensures FirstArtwork(items, decode) == decode(items[i].dataValue.data.value)
  {
    if i > 0 {
      assert FoundAt(items[1..], decode, i - 1) by {
        forall j | 0 <= j < i - 1 ensures !Decodes(items[1..][j], decode) && !Throws(items[1..][j]) {
          assert items[1..][j] == items[j + 1];
        }
      }
      FirstArtworkIsFirst(items[1..], decode, i - 1);
    }
  }

  /** With no throwing item, nil means that no item decodes. */
  lemma {:induction false} NoArtwork(items: seq<MetadataItem>, decode: Bytes -> Option<Image>)
    requires forall j :: 0 <= j < |items| ==> !Throws(items[j])
    ensures FirstArtwork(items, decode).None? <==> forall j :: 0 <= j < |items| ==> !Decodes(items[j], decode)
  {
    if items != [] {
      NoArtwork(items[1..], decode);
      assert forall j :: 1 <= j < |items| ==> items[j] == items[1..][j - 1];
    }
  }

  /**
   * `extractArtwork`: metadata is None when `loadMetadata` threw. The loop
   * returns early on the first decodable artwork item and on the first
   * throwing load.
   */
  method ExtractArtwork(metadata: Option<seq<MetadataItem>>, decode: Bytes -> Option<Image>) returns (artwork: Option<Image>)
    ensures artwork == if metadata.None? then None else FirstArtwork(metadata.value, decode)
  {
    if metadata.None? {
      return None;
    }
    var items := metadata.value;
    for k := 0 to |items|
      invariant FirstArtwork(items, decode) == FirstArtwork(items[k..], decode)
    {
      assert items[k..][1..] == items[k + 1..];
      var item := items[k];
      if item.isArtworkKey {
        match item.dataValue
        case LoadThrew =>
          return None;
        case Loaded(data) =>
          if data.Some? {
            var image := decode(data.value);
            if image.Some? {
              return image;
            }
          }
      }
    }
    return None;
  }
}
