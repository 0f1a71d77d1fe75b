/** The soft-delete lifecycle shared by detections and APOD records. */
module Lifecycle {

  /** `LocalDateTime` values; the model only copies and compares them. */
  type Timestamp = nat

  /** The `status` column: 'A' = Active, 'I' = Inactive (logically deleted). */
  datatype Status = Active | Inactive {
    function Code(): string {
      if Active? then "A" else "I"
    }
  }
}
