/** The drawing commands the views record into an Android `Path`. A path is the
    sequence of commands appended since it was last rewound or reset. */
module Paths {

  datatype PathOp = MoveTo(x: real, y: real) | LineTo(x: real, y: real)

  type Path = seq<PathOp>
}
