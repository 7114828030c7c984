/** The data shapes of the workflow visualiser (src/types.ts), plus the
    two record shapes that StepProvider builds. */
module Types {
  import opened Wrappers

  /** A measured bounding box (`StepCoordinate`): viewport coordinates as
      a bounding-client rectangle reports them. */
  datatype Rect = Rect(x: real, y: real, top: real, left: real,
                       right: real, bottom: real, width: real, height: real)

  /** One step of the workflow chain; `nextId` names the step it links to. */
  datatype Workflow = Workflow(id: string, nextId: Option<string>, name: string, order: int)

  /** The two layout directions. */
  datatype Orientation = Vertical | Horizontal

  /** One element of the measured coordinate list: a step id and its rectangle. */
  datatype Entry = Entry(id: string, coordinate: Rect)

  /** The box a connector line is drawn in, relative to the step container. */
  datatype LineStyle = LineStyle(width: real, height: real, top: real, left: real)
}
