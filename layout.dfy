// The fixed names of config/constants.go and the on-disk layout built from
// them with filepath.Join.

module Layout {

  const DeliveryConfigURL: string :=
    "https://raw.githubusercontent.com/pekashy/go-sing/a311c5534eeda63ab8c7c82ecbec5861ff1e2538/delivery/delivery_config.json"
  const GoSingDataDir: string := "go-sing-data"
  const SingBoxExeName: string := "sing-box.exe"
  const AppConfigFile: string := "app_config.json"
  const SingBoxConfigFile: string := "config.json"
  const SingBoxLogFile: string := "sing-box.log"
  const SingBoxLogDir: string := "logs"

  /** A drive letter with its colon and nothing else, such as "C:". */
  predicate BareDrive(p: string) { |p| == 2 && p[1] == ':' }

  /** filepath.Join on Windows for the non-empty, already clean components the
      program joins: one backslash between the parts, none after a bare drive
      (which makes the result relative to that drive's current directory).
      filepath.Join adds none after a trailing '/' or ':' either; the
      directories joined here come from filepath.Dir or from these joins, and
      neither ends that way unless it is a bare drive. */
  function Join(dir: string, name: string): (p: string)
    ensures dir == "" ==> p == name
    ensures dir != "" && (dir[|dir| - 1] == '\\' || BareDrive(dir)) ==> p == dir + name
    ensures dir != "" && dir[|dir| - 1] != '\\' && !BareDrive(dir) ==> p == dir + "\\" + name
  {
    if dir == "" then name
    else if dir[|dir| - 1] == '\\' || BareDrive(dir) then dir + name
    else dir + "\\" + name
  }

  function DataDir(appDir: string): string { Join(appDir, GoSingDataDir) }
  function SingBoxPath(appDir: string): string { Join(DataDir(appDir), SingBoxExeName) }
  function ConfigPath(appDir: string): string { Join(DataDir(appDir), SingBoxConfigFile) }
  function LogsDir(appDir: string): string { Join(DataDir(appDir), SingBoxLogDir) }
  function LogFilePath(appDir: string): string { Join(LogsDir(appDir), SingBoxLogFile) }
  function ZipPath(appDir: string): string { Join(DataDir(appDir), "sing-box.zip") }
  function LicensePath(appDir: string): string { Join(DataDir(appDir), "sing-box-license") }

  /** The files the program keeps in its data directory are distinct paths. */
  lemma DataFilesDistinct(appDir: string)
    ensures SingBoxPath(appDir) != ConfigPath(appDir)
    ensures SingBoxPath(appDir) != ZipPath(appDir) && SingBoxPath(appDir) != LicensePath(appDir)
    ensures ConfigPath(appDir) != ZipPath(appDir) && ConfigPath(appDir) != LicensePath(appDir)
    ensures ZipPath(appDir) != LicensePath(appDir)
    ensures SingBoxPath(appDir) != LogFilePath(appDir) && ConfigPath(appDir) != LogFilePath(appDir)
  {
    var d := DataDir(appDir);
    assert d != "" && d[|d| - 1] != '\\' && !BareDrive(d);
    var pre := d + "\\";
    assert SingBoxPath(appDir) == pre + SingBoxExeName;
    assert ConfigPath(appDir) == pre + SingBoxConfigFile;
    assert ZipPath(appDir) == pre + "sing-box.zip";
    assert LicensePath(appDir) == pre + "sing-box-license";
    assert LogFilePath(appDir) == pre + "logs\\sing-box.log";
    assert (pre + SingBoxExeName)[|pre|] == 's' && (pre + SingBoxConfigFile)[|pre|] == 'c';
    assert (pre + SingBoxExeName)[|pre| + 8] == '.' && (pre + "sing-box.zip")[|pre| + 9] == 'z';
    assert (pre + "sing-box-license")[|pre| + 8] == '-';
    assert (pre + SingBoxConfigFile)[|pre| + 1] == 'o' && (pre + "sing-box.zip")[|pre| + 1] == 'i';
    assert (pre + "sing-box-license")[|pre| + 1] == 'i' && (pre + "logs\\sing-box.log")[|pre|] == 'l';
  }
}
