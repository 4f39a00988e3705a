/** The fixed registry of background images and its lookups. */
module BackgroundImages {
  import opened Seqs

  /** One registry entry: identifier, display name, folder and asset path. */
  datatype BackgroundImageInfo = BackgroundImageInfo(id: string, name: string, path: string, imagePath: string)

  /** The asset shown when no usable identifier is given. */
  const FallbackPath: string := "/bg-images/paper/paper-desktop.jpg"

  /** `backgroundImageConfig`, in its declared order. */
  const Config: seq<BackgroundImageInfo> := [
    BackgroundImageInfo("paper-desktop", "Paper", "paper", "/bg-images/paper/paper-desktop.jpg"),
    BackgroundImageInfo("green-bg", "Ever Green", "ever-green", "/bg-images/ever-green/green-bg.jpg"),
    BackgroundImageInfo("dark-studio", "Dark Studio", "dark-studio", "/bg-images/dark-studio/dark-studio.png"),
    BackgroundImageInfo("dark-studio-2", "Dark Studio 2", "dark-studio-2", "/bg-images/dark-studio-2/dark-studio-2.png")
  ]

  /** Four entries with pairwise distinct identifiers, in the declared order. */
  lemma ConfigShape()
    ensures |Config| == 4
    ensures Config[0].id == "paper-desktop" && Config[1].id == "green-bg"
    ensures Config[2].id == "dark-studio" && Config[3].id == "dark-studio-2"
    ensures forall i, j :: 0 <= i < j < |Config| ==> Config[i].id != Config[j].id
  {
    assert Config[2].id[|Config[2].id| - 1] != Config[3].id[|Config[3].id| - 1];
  }

  /** `getAllBackgroundImages`: the configured table itself. */
  function AllBackgroundImages(): (r: seq<BackgroundImageInfo>)
    ensures |r| == 4
    ensures forall i :: 0 <= i < |r| ==> r[i] == Config[i]
  {
    Config
  }

  function IdIs(id: string): BackgroundImageInfo -> bool {
    (b: BackgroundImageInfo) => b.id == id
  }

  /** `getBackgroundImageInfo`: the entry with the given identifier, or nothing. */
  function BackgroundImageInfoOf(id: string): (r: Option<BackgroundImageInfo>)
    ensures r.Some? ==> r.value in Config && r.value.id == id
    ensures r.None? <==> forall i :: 0 <= i < |Config| ==> Config[i].id != id
  {
    Find(Config, IdIs(id))
  }

  /** Because identifiers are distinct, looking up an entry's identifier
      returns that entry. */
  lemma LookupRegistered(i: nat)
    requires i < |Config|
    ensures BackgroundImageInfoOf(Config[i].id) == Some(Config[i])
  {
    ConfigShape();
    var r := BackgroundImageInfoOf(Config[i].id);
    assert r.value in Config;
  }

  /** `getBackgroundImagePath`. The argument is `None` for null or undefined;
      null, undefined and the empty string all take the fallback. */
  function BackgroundImagePath(id: Option<string>): (r: string)
    ensures id.None? || id.value == [] ==> r == FallbackPath
  {
    if id.None? || id.value == [] then FallbackPath
    else
      match BackgroundImageInfoOf(id.value)
      case Some(b) => b.imagePath
      case None => FallbackPath
  }

  /** The path function never fails, and always names a registered asset:
      the fallback is the first entry's own path. */
  lemma {:induction false} PathIsRegistered(id: Option<string>)
    ensures exists i :: 0 <= i < |Config| && BackgroundImagePath(id) == Config[i].imagePath
  {
    assert FallbackPath == Config[0].imagePath;
    var r := BackgroundImagePath(id);
    if r != FallbackPath {
      var b := BackgroundImageInfoOf(id.value).value;
      var i :| 0 <= i < |Config| && Config[i] == b;
      assert BackgroundImagePath(id) == Config[i].imagePath;
    }
  }

  /** A registered identifier yields its entry's path; any other non-empty
      identifier yields the fallback. */
  lemma PathOfIdentifier(id: string)
    requires id != []
    ensures forall i :: 0 <= i < |Config| && Config[i].id == id ==> BackgroundImagePath(Some(id)) == Config[i].imagePath
    ensures (forall i :: 0 <= i < |Config| ==> Config[i].id != id) ==> BackgroundImagePath(Some(id)) == FallbackPath
  {
    forall i | 0 <= i < |Config| && Config[i].id == id
      ensures BackgroundImagePath(Some(id)) == Config[i].imagePath
    {
      LookupRegistered(i);
    }
  }
}
