/** The record shapes the simulated desktop passes around (types.ts). */
module DesktopTypes {
  import opened Wrappers

  /** A pixel position; JavaScript numbers are modelled as reals. */
  datatype Position = Position(x: real, y: real)

  datatype Size = Size(width: int, height: int)

  datatype DesktopIconData = DesktopIconData(
    id: string,
    title: string,
    icon: string,
    position: Position,
    projectIndex: int,
    size: Option<Size>)

  /** An open window; the source's optional position is always set when a window is created. */
  datatype OpenWindow = OpenWindow(
    id: string,
    title: string,
    projectIndex: int,
    zIndex: int,
    position: Position)

  datatype DockIcon = DockIcon(
    id: string,
    icon: string,
    labelText: string,   // the source field `label` (a Dafny keyword)
    href: Option<string>,
    separator: bool)
}
