/** Values shared by both entry points of the fruit-slicing game. */
module Common {

  datatype Option<T> = None | Some(value: T)

  /** A pixel of the video frame: `x` grows to the right, `y` grows downwards. */
  datatype Point = Point(x: int, y: int)

  /** A sprite dimension in pixels. A decoded image always has at least one row and one column. */
  type Dim = n: int | 0 < n witness 1
}
