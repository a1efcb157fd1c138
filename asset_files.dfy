/** Where an asset lives on disk: an identifier (namespace and name) and an
    asset kind determine a fixed path below the mods directory next to the
    working directory. Paths are sequences of components; the working
    directory is a parameter. */
module AssetFiles {

  import opened Wrappers

  /** An asset name inside a namespace, such as a mod's shader or texture. */
  datatype Identifier = Identifier(space: string, name: string)

  datatype AssetType = Shader | Texture

  /** The directory that holds assets of a kind. */
  function AssetDirectory(ty: AssetType): string
  {
    match ty
    case Shader => "shaders"
    case Texture => "textures"
  }

  /** The file extension of assets of a kind. */
  function AssetExtension(ty: AssetType): string
  {
    match ty
    case Shader => ".glsl"
    case Texture => ".png"
  }

  /** `getFilePath`: `cwd / .. / mods / <space> / assets / <dir> / <name><ext>`. */
  function GetFilePath(cwd: seq<string>, id: Identifier, ty: AssetType): (path: seq<string>)
    ensures |path| == |cwd| + 6 && path[..|cwd|] == cwd
    ensures path[|cwd|] == ".." && path[|cwd| + 1] == "mods" && path[|cwd| + 3] == "assets"
    ensures path[|cwd| + 2] == id.space
    ensures path[|cwd| + 4] == AssetDirectory(ty)
    ensures var file := path[|cwd| + 5];
      |file| == |id.name| + |AssetExtension(ty)|
      && file[..|id.name|] == id.name && file[|id.name|..] == AssetExtension(ty)
  {
    cwd + ["..", "mods", id.space, "assets", AssetDirectory(ty), id.name + AssetExtension(ty)]
  }

  /** The kind of asset a directory component stands for, if any. */
  function DirectoryType(dir: string): (r: Option<AssetType>)
    ensures r.Some? ==> AssetDirectory(r.value) == dir
    ensures r.None? ==> dir != AssetDirectory(Shader) && dir != AssetDirectory(Texture)
  {
    if dir == "shaders" then Some(Shader)
    else if dir == "textures" then Some(Texture)
    else None
  }

  /** Reads an asset path back into the identifier and kind it was built from,
      or `None` when `path` is not a path `GetFilePath` builds from `cwd`. */
  function ParseFilePath(cwd: seq<string>, path: seq<string>): Option<(Identifier, AssetType)>
  {
    if |path| != |cwd| + 6 || path[..|cwd|] != cwd then None
    else
      var rest := path[|cwd|..];
      if rest[0] != ".." || rest[1] != "mods" || rest[3] != "assets" then None
      else match DirectoryType(rest[4])
        case None => None
        case Some(ty) =>
          var file, ext := rest[5], AssetExtension(ty);
          if |file| < |ext| || file[|file| - |ext|..] != ext then None
          else Some((Identifier(rest[2], file[..|file| - |ext|]), ty))
  }

  /** Every path `GetFilePath` builds reads back to its identifier and kind, so
      no two (identifier, kind) pairs share a path. */
  lemma {:induction false} ParseGetFilePath(cwd: seq<string>, id: Identifier, ty: AssetType)
    ensures ParseFilePath(cwd, GetFilePath(cwd, id, ty)) == Some((id, ty))
  {
    var path := GetFilePath(cwd, id, ty);
    var rest := path[|cwd|..];
    assert rest == ["..", "mods", id.space, "assets", AssetDirectory(ty), id.name + AssetExtension(ty)];
    var file, ext := rest[5], AssetExtension(ty);
    assert file[|file| - |ext|..] == ext;
    assert file[..|file| - |ext|] == id.name;
    match ty {
      case Shader =>
      case Texture =>
    }
  }

  /** Whatever path reads back to an identifier and kind is the one
      `GetFilePath` builds from them. */
  lemma {:induction false} GetFilePathOfParse(cwd: seq<string>, path: seq<string>)
    requires ParseFilePath(cwd, path).Some?
    ensures var (id, ty) := ParseFilePath(cwd, path).value; GetFilePath(cwd, id, ty) == path
  {
    var (id, ty) := ParseFilePath(cwd, path).value;
    var rest := path[|cwd|..];
    var file, ext := rest[5], AssetExtension(ty);
    assert file == file[..|file| - |ext|] + ext;
    assert rest == ["..", "mods", id.space, "assets", AssetDirectory(ty), id.name + ext];
    assert path == path[..|cwd|] + rest;
  }

  /** The same identifier resolves to different files for a shader and for a
      texture: their directory components differ. */
  lemma ShaderAndTexturePathsDiffer(cwd: seq<string>, id: Identifier)
    ensures GetFilePath(cwd, id, Shader) != GetFilePath(cwd, id, Texture)
  {
    assert GetFilePath(cwd, id, Shader)[|cwd| + 4] != GetFilePath(cwd, id, Texture)[|cwd| + 4];
  }

  /** Only the directory and the file extension depend on the asset kind. */
  lemma {:induction false} KindChangesOnlyDirectoryAndExtension(cwd: seq<string>, id: Identifier, a: AssetType, b: AssetType)
    ensures forall i :: 0 <= i < |cwd| + 4 ==> GetFilePath(cwd, id, a)[i] == GetFilePath(cwd, id, b)[i]
    ensures GetFilePath(cwd, id, a)[|cwd| + 5][..|id.name|] == GetFilePath(cwd, id, b)[|cwd| + 5][..|id.name|]
  {
  }
}
