/**
 * The shape record every part of the editor works on (src/lib/types.ts).
 *
 * The source's `ShapeType` is the closed union "rect" | "circle"; its `Shape`
 * carries a string id, the position, all three size fields whatever the kind,
 * and the stroke style. Coordinates are JavaScript numbers, modelled as `real`.
 */
module Types {

  /** The source's `T | null`. */
  datatype Option<T> = None | Some(value: T)

  /** "rect" | "circle" */
  datatype ShapeType = Rect | Circle

  /**
   * A drawn shape. A rectangle is placed by its top-left corner and uses
   * width/height; a circle is placed by its centre and uses radius. Every
   * record nevertheless holds all three size fields.
   */
  datatype Shape = Shape(
    id: string,
    kind: ShapeType,
    x: real,
    y: real,
    width: real,
    height: real,
    radius: real,
    strokeWidth: real,
    stroke: string)

  /** A pointer or node position on the stage. */
  datatype Point = Point(x: real, y: real)
}
