/** What the orchestration reads from the host: the operating system and permission states. */
module Platform {

  /** The values `Platform.OS` takes in React Native. */
  datatype Os = Android | Ios | Web | Windows | Macos

  /** The permission states the notifications library reports. */
  datatype PermissionStatus = Granted | Denied | Undetermined
}
