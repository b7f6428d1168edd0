/** The variants of the badge component the order lists colour statuses with. */
module Ui {
  datatype BadgeVariant = Default | Secondary | Outline | Destructive
}
